/** The server's in-memory goal store (app/services/goal_store.py): for each user an
    insertion-ordered dictionary from goal id to goal, seeded with one default study goal
    the first time the user is seen. A user's dictionary is a sequence of goals with
    distinct ids, in insertion order; the uuids and the clock are parameters. */
module GoalStore {
  import opened Wrappers
  import opened Schemas

  const DefaultGoalName: string := "Study / Homework"

  /** `_default_study_goal`: "Study / Homework", study, priority 7, ten hours a week, no
      preferred windows and no deadline; it passes the goal field constraints. */
  function DefaultStudyGoal(id: string, now: Instant): (g: Goal)
    ensures g.id == id && g.name == DefaultGoalName && g.category == Study && g.createdAt == now
    ensures g.priorityWeight == 7 && g.weeklyTargetHours == 10.0
    ensures g.preferredTimeWindows == [] && g.hardDeadline == None
    ensures ValidGoalFields(g.priorityWeight, g.weeklyTargetHours)
  {
    Goal(id, DefaultGoalName, Study, 7, 10.0, [], None, now)
  }

  function Ids(goals: seq<Goal>): set<string> {
    set g | g in goals :: g.id
  }

  /** No two goals of a user share an id, as in a dictionary keyed by id. */
  predicate UniqueIds(goals: seq<Goal>) {
    forall i, j :: 0 <= i < j < |goals| ==> goals[i].id != goals[j].id
  }

  /** `goals[g.id] = g` on an insertion-ordered dictionary: a goal already stored under
      that id is replaced where it stands, otherwise `g` goes last. */
  function Put(goals: seq<Goal>, g: Goal): (r: seq<Goal>)
    decreases |goals|
  {
    if goals == [] then [g]
    else if goals[0].id == g.id then [g] + goals[1..]
    else [goals[0]] + Put(goals[1..], g)
  }

  /** `goals.get(id)`. */
  function Lookup(goals: seq<Goal>, id: string): (r: Option<Goal>)
    decreases |goals|
  {
    if goals == [] then None
    else if goals[0].id == id then Some(goals[0])
    else Lookup(goals[1..], id)
  }

  /** A lookup finds a goal with that id among the stored ones, and finds nothing
      exactly when no stored goal has that id. */
  lemma {:induction false} LookupFinds(goals: seq<Goal>, id: string)
    ensures Lookup(goals, id).None? <==> id !in Ids(goals)
    ensures Lookup(goals, id).Some? ==> Lookup(goals, id).value in goals && Lookup(goals, id).value.id == id
    decreases |goals|
  {
    if goals != [] && goals[0].id != id {
      LookupFinds(goals[1..], id);
      assert goals == [goals[0]] + goals[1..];
      assert Ids(goals) == {goals[0].id} + Ids(goals[1..]);
    }
  }

  /** Storing a goal under a fresh id appends it, one more goal. */
  lemma {:induction false} PutFresh(goals: seq<Goal>, g: Goal)
    requires g.id !in Ids(goals)
    ensures Put(goals, g) == goals + [g]
    decreases |goals|
  {
    if goals != [] {
      assert goals[0] in goals;
      assert Ids(goals[1..]) <= Ids(goals);
      PutFresh(goals[1..], g);
      assert goals == [goals[0]] + goals[1..];
    }
  }

  /** After storing a goal, looking up its id finds it and every other id finds what it
      found before. */
  lemma {:induction false} PutThenLookup(goals: seq<Goal>, g: Goal, id: string)
    ensures Lookup(Put(goals, g), g.id) == Some(g)
    ensures id != g.id ==> Lookup(Put(goals, g), id) == Lookup(goals, id)
    decreases |goals|
  {
    if goals != [] && goals[0].id != g.id {
      PutThenLookup(goals[1..], g, id);
    }
  }

  /** Storing keeps every stored id and adds the new one. */
  lemma {:induction false} PutIds(goals: seq<Goal>, g: Goal)
    ensures Ids(Put(goals, g)) == Ids(goals) + {g.id}
    decreases |goals|
  {
    if goals != [] {
      assert goals == [goals[0]] + goals[1..];
      assert Ids(goals) == {goals[0].id} + Ids(goals[1..]);
      if goals[0].id != g.id {
        PutIds(goals[1..], g);
        assert Ids(Put(goals, g)) == {goals[0].id} + Ids(Put(goals[1..], g));
      } else {
        assert Ids(Put(goals, g)) == {g.id} + Ids(goals[1..]);
      }
    }
  }

  /** Storing keeps the ids distinct. */
  lemma {:induction false} PutKeepsUnique(goals: seq<Goal>, g: Goal)
    requires UniqueIds(goals)
    ensures UniqueIds(Put(goals, g))
    decreases |goals|
  {
    if goals != [] && goals[0].id != g.id {
      var rest := Put(goals[1..], g);
      PutKeepsUnique(goals[1..], g);
      PutIds(goals[1..], g);
      forall j | 0 <= j < |rest| ensures goals[0].id != rest[j].id {
        assert rest[j].id in Ids(rest);
        if rest[j].id != g.id {
          var k :| 0 <= k < |goals[1..]| && goals[1..][k].id == rest[j].id;
          assert goals[k + 1].id == rest[j].id;
        }
      }
      assert Put(goals, g) == [goals[0]] + rest;
    }
  }

  /** The dictionaries after `_ensure_user`: a user seen for the first time gets exactly
      one goal, the default; a known user's goals are left as they are. */
  function Ensured(byUser: map<string, seq<Goal>>, user: string, seedId: string, now: Instant): (m: map<string, seq<Goal>>)
    ensures user in m && m.Keys == byUser.Keys + {user}
    ensures user !in byUser ==> m[user] == [DefaultStudyGoal(seedId, now)]
    ensures forall u :: u in byUser ==> m[u] == byUser[u]
  {
    if user in byUser then byUser else byUser[user := [DefaultStudyGoal(seedId, now)]]
  }

  /** `_ensure_user` is idempotent: a second access seeds nothing, whatever uuid and
      clock it is given. */
  lemma EnsureIdempotent(byUser: map<string, seq<Goal>>, user: string, seedId: string, seedId2: string,
                         now: Instant, now2: Instant)
    ensures Ensured(Ensured(byUser, user, seedId, now), user, seedId2, now2) == Ensured(byUser, user, seedId, now)
  {
  }

  class GoalStore {
    /** `_goals`: each user's goals in insertion order. */
    var goals: map<string, seq<Goal>>

    /** Every user seen has at least one goal, and ids are distinct within a user. */
    predicate Valid()
      reads this
    {
      forall u :: u in goals ==> goals[u] != [] && UniqueIds(goals[u])
    }

    constructor()
      ensures goals == map[] && Valid()
    {
      goals := map[];
    }

    /** `_ensure_user`. */
    method EnsureUser(user: string, seedId: string, now: Instant) returns (mine: seq<Goal>)
      requires Valid()
      modifies this
      ensures goals == Ensured(old(goals), user, seedId, now) && Valid()
      ensures mine == goals[user]
    {
      if user !in goals {
        var default := DefaultStudyGoal(seedId, now);
        goals := goals[user := [default]];
      }
      mine := goals[user];
    }

    /** `list_goals`: never empty, in insertion order. */
    method ListGoals(user: string, seedId: string, now: Instant) returns (r: seq<Goal>)
      requires Valid()
      modifies this
      ensures goals == Ensured(old(goals), user, seedId, now) && Valid()
      ensures r == goals[user] && r != []
    {
      r := EnsureUser(user, seedId, now);
    }

    /** `create_goal`: the request's fields under a new id; a fresh id grows the user's
        goals by exactly that goal, and `get_goal` finds it afterwards. */
    method CreateGoal(user: string, data: GoalCreate, seedId: string, id: string, now: Instant) returns (g: Goal)
      requires Valid()
      modifies this
      ensures g == GoalFrom(data, id, now) && RequestOf(g) == data
      ensures goals == Ensured(old(goals), user, seedId, now)[user := Put(Ensured(old(goals), user, seedId, now)[user], g)]
      ensures Valid()
      ensures Lookup(goals[user], id) == Some(g)
      ensures id !in Ids(Ensured(old(goals), user, seedId, now)[user]) ==>
        goals[user] == Ensured(old(goals), user, seedId, now)[user] + [g]
    {
      var mine := EnsureUser(user, seedId, now);
      g := GoalFrom(data, id, now);
      GoalFromKeepsRequest(data, id, now);
      PutKeepsUnique(mine, g);
      PutIds(mine, g);
      PutThenLookup(mine, g, id);
      if id !in Ids(mine) {
        PutFresh(mine, g);
      }
      goals := goals[user := Put(mine, g)];
    }

    /** `get_goal`: the user's goal with that id, None for an unknown id. */
    method GetGoal(user: string, id: string, seedId: string, now: Instant) returns (r: Option<Goal>)
      requires Valid()
      modifies this
      ensures goals == Ensured(old(goals), user, seedId, now) && Valid()
      ensures r == Lookup(goals[user], id)
    {
      var mine := EnsureUser(user, seedId, now);
      r := Lookup(mine, id);
    }
  }
}
