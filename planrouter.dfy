/** The plan routes (app/routers/plan.py): a per-user memo of the last generated plan,
    filled by `generate`, `current_plan` and `plan_insights`. The goal store and the token
    store are the shared singletons; the clock, the uuid a first goal list needs, the
    calendar fetch, the coaching, the trade-off report and the insights service are
    passed in. */
module PlanRouter {
  import opened Wrappers
  import opened Schemas
  import Allocator
  import GoalStore
  import TokenStore

  /** `generate_plan`'s default horizon, which every route uses. */
  const HorizonDays: int := 14

  /** What a request sees from outside: the clock, the uuid `_ensure_user` would give a
      default goal, the calendar's yyyy-MM-dd keys, the coaching messages and the
      Google Calendar fetch for an access token. */
  datatype Env = Env(now: Instant, seedId: string, dateKey: Instant -> string, coach: Allocator.Coach,
                     calendar: string -> Result<seq<CalendarEvent>, string>)

  /** `compute_tradeoffs`, passed in: its arithmetic is on floats. */
  type Tradeoffs = (seq<Goal>, GoalCreate, seq<CalendarEvent>, CapacityConstraints) -> TradeoffReport

  /** The three texts `get_plan_insights` returns when it has any. */
  datatype InsightsText = InsightsText(summary: string, timeBreakdown: string, whereToAddMore: string)

  /** `get_plan_insights`, passed in: None stands for a missing or empty answer. */
  type InsightsSource = (PlanResponse, seq<Goal>) -> Option<InsightsText>

  /** `_get_fixed_events` for a user whose stored Google access token is `accessToken`:
      the fetched events, or none at all for an unknown user, a missing or empty token,
      or a failed fetch. */
  function FixedEventsOf(accessToken: Option<string>, calendar: string -> Result<seq<CalendarEvent>, string>): (events: seq<CalendarEvent>)
    ensures accessToken.None? || accessToken == Some("") ==> events == []
    ensures accessToken.Some? && calendar(accessToken.value).Failure? ==> events == []
    ensures events != [] ==> accessToken.Some? && calendar(accessToken.value) == Success(events)
  {
    if accessToken.Some? && accessToken.value != "" then
      match calendar(accessToken.value)
      case Success(fetched) => fetched
      case Failure(_) => []
    else []
  }

  /** A plan as `generate_plan(goals, events, CapacityConstraints(), simulate_goal=…)`
      makes it today. */
  ghost predicate PlanOf(plan: PlanResponse, goals: seq<Goal>, events: seq<CalendarEvent>, simulate: Option<GoalCreate>, env: Env) {
    Allocator.PlanFor(plan, goals, events, DefaultConstraints, None, HorizonDays, simulate, env.now, env.dateKey)
  }

  /** The answer of `plan_insights` for what the insights service said. */
  function InsightsAnswer(said: Option<InsightsText>): (r: PlanInsightsResponse)
    ensures r.available <==> said.Some?
    ensures said.None? ==> r.summary == "" && r.timeBreakdown == "" && r.whereToAddMore == ""
    ensures said.Some? ==>
      r.summary == said.value.summary && r.timeBreakdown == said.value.timeBreakdown && r.whereToAddMore == said.value.whereToAddMore
  {
    match said
    case None => PlanInsightsResponse("", "", "", false)
    case Some(t) => NewInsights(t.summary, t.timeBreakdown, t.whereToAddMore)
  }

  class PlanRoutes {
    /** `_plan_cache`. */
    var planCache: map<string, PlanResponse>
    const goalStore: GoalStore.GoalStore
    const tokenStore: TokenStore.TokenStore

    constructor(goalStore: GoalStore.GoalStore, tokenStore: TokenStore.TokenStore)
      ensures planCache == map[] && this.goalStore == goalStore && this.tokenStore == tokenStore
    {
      planCache := map[];
      this.goalStore := goalStore;
      this.tokenStore := tokenStore;
    }

    /** The user's stored Google access token; None for a user the token store does not know. */
    function AccessToken(user: string): Option<string>
      reads tokenStore, tokenStore.users.Values
    {
      if user in tokenStore.users then tokenStore.users[user].googleAccessToken else None
    }

    /** `_get_fixed_events`. */
    method FixedEvents(user: string, env: Env) returns (events: seq<CalendarEvent>)
      ensures events == FixedEventsOf(AccessToken(user), env.calendar)
    {
      var ut := tokenStore.Get(user);
      events := [];
      if ut.Some? && ut.value.googleAccessToken.Some? && ut.value.googleAccessToken.value != "" {
        var fetched := env.calendar(ut.value.googleAccessToken.value);
        if fetched.Success? {
          events := fetched.value;
        }
      }
    }

    /** The steps every route repeats: list the user's goals (seeding the default on a
        first visit), fetch the fixed events and generate a plan with the default
        constraints, which always have valid sleep hours. */
    method BuildPlan(user: string, simulate: Option<GoalCreate>, env: Env)
      returns (plan: PlanResponse, ghost goals: seq<Goal>, ghost events: seq<CalendarEvent>)
      requires goalStore.Valid()
      modifies goalStore
      ensures goalStore.Valid() && goalStore.goals == GoalStore.Ensured(old(goalStore.goals), user, env.seedId, env.now)
      ensures goals == goalStore.goals[user] && events == FixedEventsOf(old(AccessToken(user)), env.calendar)
      ensures PlanOf(plan, goals, events, simulate, env)
    {
      ghost var token := AccessToken(user);
      var listed := goalStore.ListGoals(user, env.seedId, env.now);
      assert AccessToken(user) == token;
      var fixed := FixedEvents(user, env);
      var r := Allocator.GeneratePlan(listed, fixed, DefaultConstraints, None, HorizonDays, simulate, env.now, env.dateKey, env.coach);
      goals, events := listed, fixed;
      plan := r.value;
    }

    /** `generate`: always regenerates, with the simulated goal when the body has one,
        and overwrites the user's memo entry. The ghost results name the goals and
        events the plan was made from. */
    method Generate(user: string, body: Option<PlanGenerateRequest>, env: Env)
      returns (plan: PlanResponse, ghost goals: seq<Goal>, ghost events: seq<CalendarEvent>)
      requires goalStore.Valid()
      modifies this, goalStore
      ensures planCache == old(planCache)[user := plan]
      ensures goalStore.Valid() && goalStore.goals == GoalStore.Ensured(old(goalStore.goals), user, env.seedId, env.now)
      ensures goals == goalStore.goals[user] && events == FixedEventsOf(old(AccessToken(user)), env.calendar)
      ensures PlanOf(plan, goals, events, if body.Some? then body.value.simulateGoal else None, env)
    {
      var cache := planCache;
      plan, goals, events := BuildPlan(user, if body.Some? then body.value.simulateGoal else None, env);
      planCache := cache[user := plan];
    }

    /** `current_plan`: the memoised plan when there is one, with nothing else touched;
        otherwise a plan generated without a simulated goal, which is memoised. */
    method CurrentPlan(user: string, env: Env)
      returns (plan: PlanResponse, ghost goals: seq<Goal>, ghost events: seq<CalendarEvent>)
      requires goalStore.Valid()
      modifies this, goalStore
      ensures goalStore.Valid()
      ensures user in old(planCache) ==>
        plan == old(planCache)[user] && planCache == old(planCache) && goalStore.goals == old(goalStore.goals)
      ensures user !in old(planCache) ==>
        && planCache == old(planCache)[user := plan]
        && goalStore.goals == GoalStore.Ensured(old(goalStore.goals), user, env.seedId, env.now)
        && goals == goalStore.goals[user] && events == FixedEventsOf(old(AccessToken(user)), env.calendar)
        && PlanOf(plan, goals, events, None, env)
    {
      var cache := planCache;
      if user in cache {
        return cache[user], [], [];
      }
      plan, goals, events := BuildPlan(user, None, env);
      planCache := cache[user := plan];
    }

    /** `tradeoff`: without a simulated goal a 400 and nothing touched; otherwise the
        report on the user's goals and fixed events. It never touches the memo. */
    method Tradeoff(user: string, body: PlanGenerateRequest, env: Env, tradeoffs: Tradeoffs)
      returns (r: Result<TradeoffReport, HttpException>)
      requires goalStore.Valid()
      modifies goalStore
      ensures goalStore.Valid()
      ensures body.simulateGoal.None? ==>
        r == Failure(HttpException(400, "simulate_goal is required")) && goalStore.goals == old(goalStore.goals)
      ensures body.simulateGoal.Some? ==>
        && goalStore.goals == GoalStore.Ensured(old(goalStore.goals), user, env.seedId, env.now)
        && r == Success(tradeoffs(goalStore.goals[user], body.simulateGoal.value,
                                  FixedEventsOf(old(AccessToken(user)), env.calendar), DefaultConstraints))
    {
      if body.simulateGoal.None? {
        return Failure(HttpException(400, "simulate_goal is required"));
      }
      ghost var token := AccessToken(user);
      var goals := goalStore.ListGoals(user, env.seedId, env.now);
      assert AccessToken(user) == token;
      var events := FixedEvents(user, env);
      r := Success(tradeoffs(goals, body.simulateGoal.value, events, DefaultConstraints));
    }

    /** `plan_insights`: memoises a plan first when the user has none, then asks for
        insights on the memoised plan; an empty answer is reported as unavailable. */
    method PlanInsights(user: string, env: Env, insights: InsightsSource)
      returns (r: PlanInsightsResponse, ghost goals: seq<Goal>, ghost events: seq<CalendarEvent>)
      requires goalStore.Valid()
      modifies this, goalStore
      ensures goalStore.Valid() && goalStore.goals == GoalStore.Ensured(old(goalStore.goals), user, env.seedId, env.now)
      ensures user in planCache
      ensures user in old(planCache) ==> planCache == old(planCache)
      ensures user !in old(planCache) ==>
        && planCache == old(planCache)[user := planCache[user]]
        && goals == goalStore.goals[user] && events == FixedEventsOf(old(AccessToken(user)), env.calendar)
        && PlanOf(planCache[user], goals, events, None, env)
      ensures r == InsightsAnswer(insights(planCache[user], goalStore.goals[user]))
    {
      var plan;
      var cache := planCache;
      goals, events := [], [];
      if user in cache {
        plan := cache[user];
      } else {
        plan, goals, events := BuildPlan(user, None, env);
        planCache := cache[user := plan];
        assert planCache[user] == plan;
      }
      var listed := goalStore.ListGoals(user, env.seedId, env.now);
      GoalStore.EnsureIdempotent(old(goalStore.goals), user, env.seedId, env.seedId, env.now, env.now);
      r := InsightsAnswer(insights(plan, listed));
    }
  }

  /** Two `current_plan` calls in a row return the same plan: the first memoises it. */
  method CurrentPlanIsStable(routes: PlanRoutes, user: string, env: Env, env2: Env)
    returns (first: PlanResponse, second: PlanResponse)
    requires routes.goalStore.Valid()
    modifies routes, routes.goalStore
    ensures first == second
  {
    ghost var goals, events;
    first, goals, events := routes.CurrentPlan(user, env);
    second, goals, events := routes.CurrentPlan(user, env2);
  }

  /** After `generate`, `current_plan` returns the generated plan, simulated goal and all. */
  method CurrentAfterGenerate(routes: PlanRoutes, user: string, body: Option<PlanGenerateRequest>, env: Env, env2: Env)
    returns (generated: PlanResponse, current: PlanResponse)
    requires routes.goalStore.Valid()
    modifies routes, routes.goalStore
    ensures generated == current
  {
    ghost var goals, events;
    generated, goals, events := routes.Generate(user, body, env);
    current, goals, events := routes.CurrentPlan(user, env2);
  }
}
