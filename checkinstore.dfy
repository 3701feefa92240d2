/** The server's in-memory check-in store (app/services/checkin_store.py): one list of
    check-ins per user, created lazily on first access, appended to by `add` and read
    newest-first by `list_recent`. The uuid and the clock are parameters. */
module CheckinStore {
  import opened Wrappers
  import opened Schemas
  import Lists

  /** `list_recent`'s default limit. */
  const RecentLimit: int := 50
  /** `recent_summaries`'s default limit. */
  const SummaryLimit: int := 10

  /** The record `add` builds: the request's fields, the assessment and message it was
      given, a fresh id and the time of the call. */
  function Record(create: CheckInCreate, id: string, assessment: string, message: string, now: Instant): (c: CheckIn)
    ensures CreateOf(c) == create
    ensures c.id == id && c.assessment == assessment && c.motivationalMessage == message && c.createdAt == now
  {
    CheckIn(create.blockId, create.plannedGoalId, create.plannedGoalName, create.start, create.end, create.whatIDid,
            id, assessment, message, now)
  }

  /** Python's `s[:limit]`: the first `limit` elements, or for a negative limit all but
      the last `-limit`. */
  function SliceTo<T>(s: seq<T>, limit: int): (r: seq<T>)
    ensures |r| <= |s| && r == s[..|r|]
    ensures limit >= 0 ==> |r| == if |s| < limit then |s| else limit
    ensures limit < 0 ==> |r| == if |s| + limit < 0 then 0 else |s| + limit
  {
    if limit >= 0 then Lists.Take(s, limit)
    else if |s| + limit < 0 then []
    else s[..|s| + limit]
  }

  function CreatedAtDescending(c: CheckIn): int {
    -c.createdAt
  }

  /** `sorted(records, key=created_at, reverse=True)`: a stable sort on the negated time,
      which keeps records with equal times in insertion order as Python's does. */
  function NewestFirst(records: seq<CheckIn>): seq<CheckIn> {
    Lists.SortBy(records, CreatedAtDescending)
  }

  /** `list_recent`'s result for a user whose records are `records`. */
  function Recent(records: seq<CheckIn>, limit: int): seq<CheckIn> {
    SliceTo(NewestFirst(records), limit)
  }

  /** Records created at the same time `t` come out in insertion order. */
  lemma NewestFirstStable(records: seq<CheckIn>, t: int)
    ensures Lists.Filter(NewestFirst(records), Lists.HasKey(CreatedAtDescending, -t)) ==
      Lists.Filter(records, Lists.HasKey(CreatedAtDescending, -t))
  {
    Lists.SortByStable(records, CreatedAtDescending, -t);
  }

  /** The newest-first order holds every record and runs from the newest to the oldest. */
  lemma NewestFirstOrders(records: seq<CheckIn>)
    ensures multiset(NewestFirst(records)) == multiset(records)
    ensures forall i, j :: 0 <= i < j < |NewestFirst(records)| ==>
      NewestFirst(records)[i].createdAt >= NewestFirst(records)[j].createdAt
  {
    Lists.SortBySorts(records, CreatedAtDescending);
    var s := NewestFirst(records);
    forall i, j | 0 <= i < j < |s| ensures s[i].createdAt >= s[j].createdAt {
      assert CreatedAtDescending(s[i]) <= CreatedAtDescending(s[j]);
    }
  }

  /** `list_recent` returns at most `limit` records (for a non-negative limit), taken from
      the user's records, newest first; every record it leaves out is no newer than any it
      returns. */
  lemma RecentAreNewest(records: seq<CheckIn>, limit: int)
    ensures var r := Recent(records, limit);
      && (limit >= 0 ==> |r| <= limit)
      && multiset(r) <= multiset(records)
      && (forall i, j :: 0 <= i < j < |r| ==> r[i].createdAt >= r[j].createdAt)
      && (forall c, x :: c in records && c !in r && x in r ==> c.createdAt <= x.createdAt)
  {
    var s := NewestFirst(records);
    var r := Recent(records, limit);
    NewestFirstOrders(records);
    assert s == r + s[|r|..];
    assert multiset(s) == multiset(r) + multiset(s[|r|..]);
    LeftOutNoNewer(records, limit);
  }

  lemma LeftOutNoNewer(records: seq<CheckIn>, limit: int)
    ensures var r := Recent(records, limit);
      forall c, x :: c in records && c !in r && x in r ==> c.createdAt <= x.createdAt
  {
    var s := NewestFirst(records);
    var r := Recent(records, limit);
    NewestFirstOrders(records);
    forall c, x | c in records && c !in r && x in r ensures c.createdAt <= x.createdAt {
      assert c in multiset(s);
      var k :| 0 <= k < |s| && s[k] == c;
      var m :| 0 <= m < |r| && r[m] == x;
      assert forall t :: 0 <= t < |r| ==> s[t] == r[t];
      assert s[m] == x && m < k;
    }
  }

  /** A record stored strictly later than every other comes first in `list_recent`
      whenever the limit lets anything through. */
  lemma LatestListedFirst(records: seq<CheckIn>, c: CheckIn, limit: int)
    requires forall x :: x in records ==> x.createdAt < c.createdAt
    requires limit > 0
    ensures Recent(records + [c], limit) != [] && Recent(records + [c], limit)[0] == c
  {
    var s := NewestFirst(records + [c]);
    NewestFirstOrders(records + [c]);
    assert c in multiset(s);
    var k :| 0 <= k < |s| && s[k] == c;
    assert s[0] in multiset(records + [c]);
    assert s[0].createdAt >= s[k].createdAt;
  }

  /** One line of `recent_summaries`. */
  function Summary(c: CheckIn): (line: string)
    ensures line == c.plannedGoalName + ": " + c.whatIDid
  {
    c.plannedGoalName + ": " + c.whatIDid
  }

  function Summaries(records: seq<CheckIn>): (lines: seq<string>)
    ensures |lines| == |records|
    ensures forall i :: 0 <= i < |records| ==> lines[i] == Summary(records[i])
  {
    seq(|records|, i requires 0 <= i < |records| => Summary(records[i]))
  }

  /** `recent_summaries` has at most `limit` lines, each the goal name and what was done
      of one of the user's records. */
  lemma RecentSummariesBounded(records: seq<CheckIn>, limit: int)
    ensures var lines := Summaries(Recent(records, limit));
      && (limit >= 0 ==> |lines| <= limit)
      && forall i :: 0 <= i < |lines| ==> exists c :: c in records && lines[i] == c.plannedGoalName + ": " + c.whatIDid
  {
    var r := Recent(records, limit);
    RecentAreNewest(records, limit);
    forall i | 0 <= i < |r| ensures r[i] in records {
      assert r[i] in multiset(r);
    }
  }

  function HasBlock(blockId: string): CheckIn -> bool {
    (c: CheckIn) => c.blockId == blockId
  }

  /** `get_by_block` after an `add`: the earliest record for the block is still the one
      found, and a block recorded for the first time finds the new record. */
  lemma FindAfterAppend(records: seq<CheckIn>, c: CheckIn)
    ensures Lists.First(records, HasBlock(c.blockId)).Some? ==>
      Lists.First(records + [c], HasBlock(c.blockId)) == Lists.First(records, HasBlock(c.blockId))
    ensures Lists.First(records, HasBlock(c.blockId)).None? ==>
      Lists.First(records + [c], HasBlock(c.blockId)) == Some(c)
  {
    var s := records + [c];
    var p := HasBlock(c.blockId);
    assert forall k :: 0 <= k < |records| ==> s[k] == records[k];
    assert p(s[|records|]);
  }

  class CheckInStore {
    /** `_by_user`: each user's check-ins in insertion order. */
    var byUser: map<string, seq<CheckIn>>

    constructor()
      ensures byUser == map[]
    {
      byUser := map[];
    }

    /** A user's records; a user never seen has none. */
    function Records(user: string): seq<CheckIn>
      reads this
    {
      if user in byUser then byUser[user] else []
    }

    /** `_list`: the user's list, created empty on first access. */
    method List(user: string) returns (records: seq<CheckIn>)
      modifies this
      ensures records == old(Records(user))
      ensures byUser == old(byUser)[user := records]
    {
      if user !in byUser {
        byUser := byUser[user := []];
      }
      records := byUser[user];
    }

    /** `add`: appends exactly one record to the user's list, without looking for an
        existing record of the same block; other users' lists are unchanged. */
    method Add(user: string, create: CheckInCreate, assessment: string, message: string, id: string, now: Instant)
      returns (c: CheckIn)
      modifies this
      ensures c == Record(create, id, assessment, message, now)
      ensures byUser == old(byUser)[user := old(Records(user)) + [c]]
    {
      c := Record(create, id, assessment, message, now);
      var records := List(user);
      byUser := byUser[user := records + [c]];
    }

    /** `list_recent`. */
    method ListRecent(user: string, limit: int) returns (r: seq<CheckIn>)
      modifies this
      ensures r == Recent(old(Records(user)), limit)
      ensures byUser == old(byUser)[user := old(Records(user))]
    {
      var records := List(user);
      r := SliceTo(NewestFirst(records), limit);
    }

    /** `get_by_block`: the earliest-inserted record of the block, found by a scan. */
    method GetByBlock(user: string, blockId: string) returns (r: Option<CheckIn>)
      modifies this
      ensures r == Lists.First(old(Records(user)), HasBlock(blockId))
      ensures byUser == old(byUser)[user := old(Records(user))]
    {
      var records := List(user);
      var i := 0;
      while i < |records|
        invariant 0 <= i <= |records|
        invariant forall j :: 0 <= j < i ==> records[j].blockId != blockId
      {
        if records[i].blockId == blockId {
          assert HasBlock(blockId)(records[i]);
          return Some(records[i]);
        }
        i := i + 1;
      }
      return None;
    }

    /** `recent_summaries`. */
    method RecentSummaries(user: string, limit: int) returns (lines: seq<string>)
      modifies this
      ensures lines == Summaries(Recent(old(Records(user)), limit))
      ensures byUser == old(byUser)[user := old(Records(user))]
    {
      var recent := ListRecent(user, limit);
      lines := [];
      var i := 0;
      while i < |recent|
        invariant 0 <= i <= |recent|
        invariant lines == Summaries(recent[..i])
      {
        lines := lines + [Summary(recent[i])];
        i := i + 1;
      }
      assert recent[..i] == recent;
    }
  }

  /** Submitting the same request twice stores two records of the same block. */
  method AddTwiceKeepsBoth(store: CheckInStore, user: string, create: CheckInCreate, id1: string, id2: string, now: Instant)
    modifies store
    ensures |store.Records(user)| == |old(store.Records(user))| + 2
    ensures store.Records(user)[|store.Records(user)| - 1].blockId == create.blockId
    ensures store.Records(user)[|store.Records(user)| - 2].blockId == create.blockId
  {
    var a := store.Add(user, create, "", "", id1, now);
    var b := store.Add(user, create, "", "", id2, now);
  }
}
