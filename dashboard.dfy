/** The dashboard's view model (DashboardViewModel.swift): the refresh that fetches the
    plan and the best-effort feeds, falls back to the cached plan on failure, schedules
    reminders, and derives the block that is waiting for a check-in. Remote results,
    the clock and the calendar's "today" are parameters. */
module Dashboard {
  import opened Wrappers
  import opened Text
  import opened Models
  import Lists
  import Cache
  import Network
  import Notifications

  /** How long after its end a block may still be checked in. */
  const CheckInGraceMs: int := 2 * MsPerHour

  const CachedDataNotice: string := "\U{26A0}\U{FE0F} Showing cached data. Reconnect to refresh."
  const OfflineNotice: string := "\U{26A0}\U{FE0F} Offline. Showing last known plan."

  // ---- Pure helpers ----

  /** `blockId(for:)`: the goal id, a dash and the start as seconds since the epoch. It is
      the block's own `id`, so blocks with the same goal and start share it. */
  function BlockId(b: PlannedBlock): (id: string)
    ensures id == b.Id()
  {
    b.goalId + "-" + SecondsText(b.start)
  }

  function CheckedBlockIds(checkIns: seq<CheckIn>): set<string> {
    set i | 0 <= i < |checkIns| :: checkIns[i].blockId
  }

  /** A block is waiting for a check-in when it is not fixed, has ended, ended less than two
      hours ago and has no record yet. */
  predicate AwaitsCheckIn(b: PlannedBlock, checked: set<string>, now: Timestamp) {
    !b.isFixed && b.end < now && b.end - now > -CheckInGraceMs && BlockId(b) !in checked
  }

  /** `nextBlockNeedingCheckIn`: the first block of `todayBlocks` waiting for a check-in. */
  function NextBlockNeedingCheckIn(todayBlocks: seq<PlannedBlock>, checkIns: seq<CheckIn>, now: Timestamp)
    : Option<PlannedBlock>
    decreases |todayBlocks|
  {
    if todayBlocks == [] then None
    else if AwaitsCheckIn(todayBlocks[0], CheckedBlockIds(checkIns), now) then Some(todayBlocks[0])
    else NextBlockNeedingCheckIn(todayBlocks[1..], checkIns, now)
  }

  /** The block offered is one of today's blocks, is not fixed, ended before now and less
      than two hours before it, and no record carries its id. */
  lemma {:induction false} PendingBlockQualifies(todayBlocks: seq<PlannedBlock>, checkIns: seq<CheckIn>, now: Timestamp)
    ensures var r := NextBlockNeedingCheckIn(todayBlocks, checkIns, now);
      r.Some? ==>
        r.value in todayBlocks && !r.value.isFixed && r.value.end < now && now - r.value.end < CheckInGraceMs &&
        (forall i :: 0 <= i < |checkIns| ==> checkIns[i].blockId != r.value.Id())
    decreases |todayBlocks|
  {
    if todayBlocks != [] && !AwaitsCheckIn(todayBlocks[0], CheckedBlockIds(checkIns), now) {
      PendingBlockQualifies(todayBlocks[1..], checkIns, now);
    } else if todayBlocks != [] {
      var checked := CheckedBlockIds(checkIns);
      assert forall i :: 0 <= i < |checkIns| ==> checkIns[i].blockId in checked;
    }
  }

  /** The block offered is the first waiting one in `todayBlocks` order, and none is offered
      exactly when no block is waiting. */
  lemma {:induction false} PendingBlockIsFirst(todayBlocks: seq<PlannedBlock>, checkIns: seq<CheckIn>, now: Timestamp)
    ensures var r := NextBlockNeedingCheckIn(todayBlocks, checkIns, now);
      && (r.Some? ==> exists i :: (0 <= i < |todayBlocks| && todayBlocks[i] == r.value &&
            AwaitsCheckIn(r.value, CheckedBlockIds(checkIns), now) &&
            forall j :: 0 <= j < i ==> !AwaitsCheckIn(todayBlocks[j], CheckedBlockIds(checkIns), now)))
      && (r.None? <==> forall i :: 0 <= i < |todayBlocks| ==> !AwaitsCheckIn(todayBlocks[i], CheckedBlockIds(checkIns), now))
    decreases |todayBlocks|
  {
    var checked := CheckedBlockIds(checkIns);
    if todayBlocks != [] && !AwaitsCheckIn(todayBlocks[0], checked, now) {
      var rest := todayBlocks[1..];
      PendingBlockIsFirst(rest, checkIns, now);
      var r := NextBlockNeedingCheckIn(rest, checkIns, now);
      if r.Some? {
        var i :| 0 <= i < |rest| && rest[i] == r.value && AwaitsCheckIn(r.value, checked, now) &&
          forall j :: 0 <= j < i ==> !AwaitsCheckIn(rest[j], checked, now);
        assert todayBlocks[i + 1] == r.value;
        assert forall j :: 0 <= j < i + 1 ==> !AwaitsCheckIn(todayBlocks[j], checked, now) by {
          forall j | 0 <= j < i + 1 ensures !AwaitsCheckIn(todayBlocks[j], checked, now) {
            if j > 0 { assert todayBlocks[j] == rest[j - 1]; }
          }
        }
      } else {
        assert forall i :: 0 <= i < |todayBlocks| ==> !AwaitsCheckIn(todayBlocks[i], checked, now) by {
          forall i | 0 <= i < |todayBlocks| ensures !AwaitsCheckIn(todayBlocks[i], checked, now) {
            if i > 0 { assert todayBlocks[i] == rest[i - 1]; }
          }
        }
      }
    }
  }

  /** Whether a block starts on the given calendar day: Calendar's `isDate(_:inSameDayAs:)`
      and `isDateInToday` with the day passed in as a range. */
  function StartsOn(day: DayRange): PlannedBlock -> bool {
    (b: PlannedBlock) => day.Contains(b.start)
  }

  /** The blocks starting on the given calendar day, in plan order. */
  function BlocksOn(blocks: seq<PlannedBlock>, day: DayRange): seq<PlannedBlock> {
    Lists.Filter(blocks, StartsOn(day))
  }

  /** Exactly the blocks of the day are kept, each exactly as often as in the plan, and
      blocks of other days not at all. */
  lemma BlocksOnKeepsDay(blocks: seq<PlannedBlock>, day: DayRange)
    ensures var r := BlocksOn(blocks, day);
      && (forall i :: 0 <= i < |r| ==> day.Contains(r[i].start) && r[i] in blocks)
      && (forall i :: 0 <= i < |blocks| && day.Contains(blocks[i].start) ==> blocks[i] in r)
      && forall b :: multiset(r)[b] == if day.Contains(b.start) then multiset(blocks)[b] else 0
  {
    Lists.FilterKeeps(blocks, StartsOn(day));
    forall b ensures multiset(BlocksOn(blocks, day))[b] == if day.Contains(b.start) then multiset(blocks)[b] else 0 {
      Lists.FilterCounts(blocks, StartsOn(day), b);
    }
  }

  predicate StartsAscending(s: seq<PlannedBlock>) {
    forall i, j :: 0 <= i < j < |s| ==> s[i].start <= s[j].start
  }

  /** `b` placed before the first block of `s` that starts no earlier. */
  function InsertByStart(b: PlannedBlock, s: seq<PlannedBlock>): seq<PlannedBlock>
    decreases |s|
  {
    if s == [] then [b]
    else if b.start <= s[0].start then [b] + s
    else [s[0]] + InsertByStart(b, s[1..])
  }

  /** Insertion keeps the blocks and adds `b`. */
  lemma {:induction false} InsertByStartPermutes(b: PlannedBlock, s: seq<PlannedBlock>)
    ensures multiset(InsertByStart(b, s)) == multiset(s) + multiset{b}
    decreases |s|
  {
    if s != [] && b.start > s[0].start {
      InsertByStartPermutes(b, s[1..]);
      assert s == [s[0]] + s[1..];
    }
  }

  /** Insertion into blocks with ascending starts keeps the starts ascending. */
  lemma {:induction false} InsertByStartSorted(b: PlannedBlock, s: seq<PlannedBlock>)
    requires StartsAscending(s)
    ensures StartsAscending(InsertByStart(b, s))
    decreases |s|
  {
    if s != [] && b.start > s[0].start {
      var rest := InsertByStart(b, s[1..]);
      InsertByStartSorted(b, s[1..]);
      InsertByStartPermutes(b, s[1..]);
      forall j | 0 <= j < |rest| ensures s[0].start <= rest[j].start {
        assert rest[j] in multiset(s[1..]) + multiset{b} by {
          assert rest[j] in multiset(rest);
        }
        if rest[j] != b {
          var k :| 0 <= k < |s[1..]| && s[1..][k] == rest[j];
          assert s[k + 1] == rest[j];
        }
      }
    }
  }

  /** `sorted { $0.start < $1.start }` by insertion. */
  function SortedByStart(blocks: seq<PlannedBlock>): seq<PlannedBlock>
    decreases |blocks|
  {
    if blocks == [] then [] else InsertByStart(blocks[0], SortedByStart(blocks[1..]))
  }

  /** The sort is a permutation with ascending starts. Swift's sort is not stable, so this
      is all that is promised about the order of blocks with equal starts. */
  lemma SortedByStartSorts(blocks: seq<PlannedBlock>)
    ensures multiset(SortedByStart(blocks)) == multiset(blocks)
    ensures StartsAscending(SortedByStart(blocks))
  {
    SortedByStartPermutes(blocks);
    SortedByStartAscends(blocks);
  }

  lemma {:induction false} SortedByStartPermutes(blocks: seq<PlannedBlock>)
    ensures multiset(SortedByStart(blocks)) == multiset(blocks)
    decreases |blocks|
  {
    if blocks != [] {
      SortedByStartPermutes(blocks[1..]);
      InsertByStartPermutes(blocks[0], SortedByStart(blocks[1..]));
      assert blocks == [blocks[0]] + blocks[1..];
    }
  }

  lemma {:induction false} SortedByStartAscends(blocks: seq<PlannedBlock>)
    ensures StartsAscending(SortedByStart(blocks))
    decreases |blocks|
  {
    if blocks != [] {
      SortedByStartAscends(blocks[1..]);
      InsertByStartSorted(blocks[0], SortedByStart(blocks[1..]));
    }
  }

  /** Today's blocks as shown after a fetch: exactly the plan's blocks of the day, each as
      often as in the plan, with ascending starts. */
  lemma SortedDayBlocks(blocks: seq<PlannedBlock>, day: DayRange)
    ensures var r := SortedByStart(BlocksOn(blocks, day));
      && multiset(r) == multiset(BlocksOn(blocks, day))
      && StartsAscending(r)
      && (forall b :: b in r <==> b in blocks && day.Contains(b.start))
      && forall b :: multiset(r)[b] == if day.Contains(b.start) then multiset(blocks)[b] else 0
  {
    var d := BlocksOn(blocks, day);
    var r := SortedByStart(d);
    SortedByStartSorts(d);
    BlocksOnKeepsDay(blocks, day);
    forall b ensures b in r <==> b in blocks && day.Contains(b.start) {
      assert b in r <==> b in multiset(r);
      assert b in d <==> b in multiset(d);
      if b in d {
        var i :| 0 <= i < |d| && d[i] == b;
      }
      if b in blocks && day.Contains(b.start) {
        var i :| 0 <= i < |blocks| && blocks[i] == b;
      }
    }
  }

  /** `capacityByDay.first { $0.date == key }`. */
  function CapacityFor(capacities: seq<DayCapacity>, key: string): Option<DayCapacity>
    decreases |capacities|
  {
    if capacities == [] then None
    else if capacities[0].date == key then Some(capacities[0])
    else CapacityFor(capacities[1..], key)
  }

  /** The entry found is the first one for the key, and there is none exactly when no
      entry has the key. */
  lemma {:induction false} CapacityForIsFirst(capacities: seq<DayCapacity>, key: string)
    ensures var r := CapacityFor(capacities, key);
      && (r.Some? ==> exists i :: (0 <= i < |capacities| && capacities[i] == r.value && r.value.date == key &&
            forall j :: 0 <= j < i ==> capacities[j].date != key))
      && (r.None? <==> forall i :: 0 <= i < |capacities| ==> capacities[i].date != key)
    decreases |capacities|
  {
    if capacities != [] && capacities[0].date != key {
      var rest := capacities[1..];
      CapacityForIsFirst(rest, key);
      var r := CapacityFor(rest, key);
      if r.Some? {
        var i :| 0 <= i < |rest| && rest[i] == r.value && r.value.date == key &&
          forall j :: 0 <= j < i ==> rest[j].date != key;
        assert capacities[i + 1] == r.value;
        forall j | 0 <= j < i + 1 ensures capacities[j].date != key {
          if j > 0 { assert capacities[j] == rest[j - 1]; }
        }
      } else {
        forall i | 0 <= i < |capacities| ensures capacities[i].date != key {
          if i > 0 { assert capacities[i] == rest[i - 1]; }
        }
      }
    } else if capacities != [] {
      assert capacities[0] == CapacityFor(capacities, key).value;
    }
  }

  /** `todayBlocks.first { $0.start > now }`. */
  function FirstStartingAfter(blocks: seq<PlannedBlock>, now: Timestamp): (r: Option<PlannedBlock>)
    ensures r.Some? ==> r.value.start > now && r.value in blocks
    ensures r.None? <==> forall i :: 0 <= i < |blocks| ==> blocks[i].start <= now
    decreases |blocks|
  {
    if blocks == [] then None
    else if blocks[0].start > now then Some(blocks[0])
    else FirstStartingAfter(blocks[1..], now)
  }

  /** The pair shown after a successful check-in. */
  datatype CheckInResult = CheckInResult(assessment: string, motivational: string)

  /** What the five remote calls of one refresh returned. */
  datatype Feeds = Feeds(
    plan: Result<PlanResponse, Network.APIError>,
    signals: Result<seq<GmailSignal>, Network.APIError>,
    tasks: Result<seq<CanvasTask>, Network.APIError>,
    insights: Result<PlanInsightsResponse, Network.APIError>,
    checkIns: Result<seq<CheckIn>, Network.APIError>)

  class DashboardViewModel {
    var todayBlocks: seq<PlannedBlock>
    var signals: seq<GmailSignal>
    var upcomingTasks: seq<CanvasTask>
    var capacityToday: Option<DayCapacity>
    var coachingMessages: seq<string>
    var planInsights: Option<PlanInsightsResponse>
    var checkIns: seq<CheckIn>
    var blockAwaitingCheckIn: Option<PlannedBlock>
    var lastCheckInResult: Option<CheckInResult>
    var isLoading: bool
    var errorMessage: Option<string>
    var needsReconnect: bool

    /** The shared plan cache and notification registry. */
    const cache: Cache.PlanCache
    const center: Notifications.NotificationCenter

    constructor(cache: Cache.PlanCache, center: Notifications.NotificationCenter)
      ensures this.cache == cache && this.center == center
      ensures todayBlocks == [] && signals == [] && upcomingTasks == [] && capacityToday.None?
      ensures coachingMessages == [] && planInsights.None? && checkIns == [] && blockAwaitingCheckIn.None?
      ensures lastCheckInResult.None? && !isLoading && errorMessage.None? && !needsReconnect
    {
      this.cache := cache;
      this.center := center;
      todayBlocks, signals, upcomingTasks, capacityToday := [], [], [], None;
      coachingMessages, planInsights, checkIns, blockAwaitingCheckIn := [], None, [], None;
      lastCheckInResult, isLoading, errorMessage, needsReconnect := None, false, None, false;
    }

    /** `loadData`. On success of the plan fetch the plan is saved, today's blocks are sorted
        by start, today's capacity and the coaching messages are taken from it, failed feeds
        fall back to empty, reminders are rescheduled and the pending check-in is derived. On
        failure nothing but the two flags, the error text, and (when a cached plan loads)
        today's blocks, unsorted, and the messages plus one notice change. */
    method LoadData(feeds: Feeds, now: Timestamp, today: DayRange, todayKey: string, cacheWrite: Cache.WriteOutcome)
      requires cache != center as object
      modifies this`isLoading, this`errorMessage, this`needsReconnect
      modifies this`todayBlocks, this`capacityToday, this`coachingMessages, this`signals, this`upcomingTasks,
               this`planInsights, this`checkIns, this`blockAwaitingCheckIn, cache, center
      ensures !isLoading
      // success
      ensures feeds.plan.Success? ==>
        && SavedAndReminded(feeds.plan.value, feeds.tasks.ToOption().GetOr([]), now, cacheWrite, old(cache.file))
        && Shows(feeds.plan.value, feeds, now, today, todayKey)
        && errorMessage.None? && !needsReconnect
      // failure
      ensures feeds.plan.Failure? ==>
        && cache.file == old(cache.file) && center.pending == old(center.pending)
        && signals == old(signals) && upcomingTasks == old(upcomingTasks) && capacityToday == old(capacityToday)
        && planInsights == old(planInsights) && checkIns == old(checkIns)
        && blockAwaitingCheckIn == old(blockAwaitingCheckIn)
        && needsReconnect == feeds.plan.error.IsUnauthorized()
        && errorMessage == (if feeds.plan.error.IsUnauthorized() then None else Some(feeds.plan.error.Description()))
        && ShowsCached(feeds.plan.error, today, old(todayBlocks), old(coachingMessages))
    {
      isLoading, errorMessage, needsReconnect := true, None, false;

      match feeds.plan {
        case Success(plan) =>
          ShowFetchedPlan(plan, feeds, now, today, todayKey, cacheWrite);
        case Failure(error) =>
          ShowFallback(error, today);
      }

      isLoading := false;
    }

    /** The success path of a refresh: saves the plan, reschedules the reminders for its
        blocks and the fetched tasks, and shows the plan and the feeds. */
    method ShowFetchedPlan(plan: PlanResponse, feeds: Feeds, now: Timestamp, today: DayRange, todayKey: string,
                           cacheWrite: Cache.WriteOutcome)
      requires cache != center as object
      modifies this`todayBlocks, this`capacityToday, this`coachingMessages, this`signals, this`upcomingTasks,
               this`planInsights, this`checkIns, this`blockAwaitingCheckIn, cache, center
      ensures SavedAndReminded(plan, feeds.tasks.ToOption().GetOr([]), now, cacheWrite, old(cache.file))
      ensures Shows(plan, feeds, now, today, todayKey)
    {
      cache.Save(plan, cacheWrite);
      RescheduleReminders(plan.blocks, feeds.tasks.ToOption().GetOr([]), now);
      ShowPlan(plan, feeds, now, today, todayKey);
    }

    /** After a successful fetch: the slot holds the whole-second encoding of the plan when
        the write succeeded and what it held before otherwise, and the registry holds the
        reminders of one refresh for the plan's blocks and the fetched tasks. */
    ghost predicate SavedAndReminded(plan: PlanResponse, tasks: seq<CanvasTask>, now: Timestamp,
                                     cacheWrite: Cache.WriteOutcome, fileBefore: Option<Cache.StoredFile>)
      reads cache`file, center`pending
    {
      && cache.file == Cache.AfterSave(fileBefore, plan, cacheWrite)
      && center.pending == Notifications.Refreshed(plan.blocks, tasks, now)
    }

    /** What the screen shows after a successful fetch: today's blocks sorted by start,
        today's capacity entry, the plan's messages, the feeds (empty or nil on failure)
        and the block waiting for a check-in. */
    ghost predicate Shows(plan: PlanResponse, feeds: Feeds, now: Timestamp, today: DayRange, todayKey: string)
      reads this`todayBlocks, this`capacityToday, this`coachingMessages, this`signals, this`upcomingTasks
      reads this`planInsights, this`checkIns, this`blockAwaitingCheckIn
    {
      && todayBlocks == SortedByStart(BlocksOn(plan.blocks, today))
      && capacityToday == CapacityFor(plan.capacityByDay, todayKey)
      && coachingMessages == plan.coachingMessages
      && signals == feeds.signals.ToOption().GetOr([])
      && upcomingTasks == feeds.tasks.ToOption().GetOr([])
      && planInsights == feeds.insights.ToOption()
      && checkIns == feeds.checkIns.ToOption().GetOr([])
      && blockAwaitingCheckIn == NextBlockNeedingCheckIn(todayBlocks, checkIns, now)
    }

    /** Assigns the fields that `Shows` describes and no others. */
    method ShowPlan(plan: PlanResponse, feeds: Feeds, now: Timestamp, today: DayRange, todayKey: string)
      modifies this`todayBlocks, this`capacityToday, this`coachingMessages, this`signals, this`upcomingTasks,
               this`planInsights, this`checkIns, this`blockAwaitingCheckIn
      ensures Shows(plan, feeds, now, today, todayKey)
    {
      var blocks := SortedByStart(BlocksOn(plan.blocks, today));
      var records := feeds.checkIns.ToOption().GetOr([]);
      todayBlocks, capacityToday, coachingMessages, signals, upcomingTasks, planInsights, checkIns, blockAwaitingCheckIn :=
        blocks, CapacityFor(plan.capacityByDay, todayKey), plan.coachingMessages, feeds.signals.ToOption().GetOr([]),
        feeds.tasks.ToOption().GetOr([]), feeds.insights.ToOption(), records, NextBlockNeedingCheckIn(blocks, records, now);
    }

    /** Clears the registry and schedules the block and due-date reminders. */
    method RescheduleReminders(blocks: seq<PlannedBlock>, tasks: seq<CanvasTask>, now: Timestamp)
      modifies center
      ensures center.pending == Notifications.Refreshed(blocks, tasks, now)
    {
      Notifications.ScheduleBlockReminders(center, blocks, now);
      Notifications.ScheduleDueDateReminders(center, tasks, now);
    }

    /** After a failed fetch: when a cached plan loads, today's blocks from it (not sorted)
        and its messages followed by the notice for the error; otherwise the blocks and
        messages shown before. */
    ghost predicate ShowsCached(error: Network.APIError, today: DayRange,
                                blocksBefore: seq<PlannedBlock>, messagesBefore: seq<string>)
      reads this`todayBlocks, this`coachingMessages, cache
    {
      match cache.Load()
      case Some(cached) =>
        && todayBlocks == BlocksOn(cached.blocks, today)
        && coachingMessages == cached.coachingMessages + [if error.IsUnauthorized() then CachedDataNotice else OfflineNotice]
      case None => todayBlocks == blocksBefore && coachingMessages == messagesBefore
    }

    /** The failure path: the flag or the error text, and, when a cached plan loads,
        today's blocks from it (not sorted) and its messages followed by the notice. */
    method ShowFallback(error: Network.APIError, today: DayRange)
      modifies this`needsReconnect, this`errorMessage, this`todayBlocks, this`coachingMessages
      ensures needsReconnect == (error.IsUnauthorized() || old(needsReconnect))
      ensures errorMessage == (if error.IsUnauthorized() then old(errorMessage) else Some(error.Description()))
      ensures ShowsCached(error, today, old(todayBlocks), old(coachingMessages))
    {
      var notice;
      if error.IsUnauthorized() {
        needsReconnect := true;
        notice := CachedDataNotice;
      } else {
        errorMessage := Some(error.Description());
        notice := OfflineNotice;
      }
      var cached := cache.Load();
      if cached.Some? {
        todayBlocks := BlocksOn(cached.value.blocks, today);
        coachingMessages := cached.value.coachingMessages + [notice];
      }
    }

    /** `nextBlock`: the first of today's blocks that starts after now. */
    function NextBlock(now: Timestamp): (r: Option<PlannedBlock>)
      reads this
      ensures r.Some? ==> r.value.start > now && r.value in todayBlocks
      ensures r.None? <==> forall i :: 0 <= i < |todayBlocks| ==> todayBlocks[i].start <= now
    {
      FirstStartingAfter(todayBlocks, now)
    }

    /** `totalAllocatedToday`: today's allocated hours, or 0 without a capacity entry. */
    function TotalAllocatedToday(): (h: real)
      reads this
      ensures capacityToday.None? ==> h == 0.0
      ensures capacityToday.Some? ==> h == capacityToday.value.allocatedHours
    {
      match capacityToday
      case None => 0.0
      case Some(cap) => cap.allocatedHours
    }

    /** `totalFreeToday`: today's spare hours, or 0 without a capacity entry. */
    function TotalFreeToday(): (h: real)
      reads this
      ensures capacityToday.None? ==> h == 0.0
      ensures capacityToday.Some? ==> h == capacityToday.value.spareHours
    {
      match capacityToday
      case None => 0.0
      case Some(cap) => cap.spareHours
    }

    /** `submitCheckIn`: sends the record built from the block; on success shows the
        assessment, re-lists the records (a failed listing counts as none) and derives the
        pending block again; on failure only the error text changes. */
    method SubmitCheckIn(block: PlannedBlock, whatIDid: string,
                         submit: CheckInCreate -> Result<CheckInResponse, Network.APIError>,
                         relisted: Result<seq<CheckIn>, Network.APIError>, now: Timestamp)
      returns (sent: CheckInCreate)
      modifies this
      ensures sent == CheckInCreate(block.Id(), block.goalId, block.goalName, block.start, block.end, whatIDid)
      ensures todayBlocks == old(todayBlocks) && signals == old(signals) && upcomingTasks == old(upcomingTasks)
      ensures capacityToday == old(capacityToday) && coachingMessages == old(coachingMessages)
      ensures planInsights == old(planInsights) && isLoading == old(isLoading) && needsReconnect == old(needsReconnect)
      ensures submit(sent).Success? ==>
        && lastCheckInResult == Some(CheckInResult(submit(sent).value.assessment, submit(sent).value.motivationalMessage))
        && checkIns == relisted.ToOption().GetOr([])
        && blockAwaitingCheckIn == NextBlockNeedingCheckIn(todayBlocks, checkIns, now)
        && errorMessage == old(errorMessage)
      ensures submit(sent).Failure? ==>
        && errorMessage == Some(submit(sent).error.Description())
        && lastCheckInResult == old(lastCheckInResult) && checkIns == old(checkIns)
        && blockAwaitingCheckIn == old(blockAwaitingCheckIn)
    {
      sent := CheckInCreate(BlockId(block), block.goalId, block.goalName, block.start, block.end, whatIDid);
      match submit(sent) {
        case Success(response) =>
          lastCheckInResult := Some(CheckInResult(response.assessment, response.motivationalMessage));
          checkIns := relisted.ToOption().GetOr([]);
          blockAwaitingCheckIn := NextBlockNeedingCheckIn(todayBlocks, checkIns, now);
        case Failure(error) =>
          errorMessage := Some(error.Description());
      }
    }

    method DismissCheckInResult()
      modifies this
      ensures lastCheckInResult.None?
      ensures todayBlocks == old(todayBlocks) && checkIns == old(checkIns) && blockAwaitingCheckIn == old(blockAwaitingCheckIn)
      ensures signals == old(signals) && upcomingTasks == old(upcomingTasks) && capacityToday == old(capacityToday)
      ensures coachingMessages == old(coachingMessages) && planInsights == old(planInsights)
      ensures isLoading == old(isLoading) && errorMessage == old(errorMessage) && needsReconnect == old(needsReconnect)
    {
      lastCheckInResult := None;
    }

    method DismissCheckInPrompt()
      modifies this
      ensures blockAwaitingCheckIn.None?
      ensures todayBlocks == old(todayBlocks) && checkIns == old(checkIns) && lastCheckInResult == old(lastCheckInResult)
      ensures signals == old(signals) && upcomingTasks == old(upcomingTasks) && capacityToday == old(capacityToday)
      ensures coachingMessages == old(coachingMessages) && planInsights == old(planInsights)
      ensures isLoading == old(isLoading) && errorMessage == old(errorMessage) && needsReconnect == old(needsReconnect)
    {
      blockAwaitingCheckIn := None;
    }
  }

  // ---- Properties of the check-in derivation ----

  /** Once a record carries a block's id, that block is never offered again. */
  lemma RecordedBlockNotOffered(todayBlocks: seq<PlannedBlock>, checkIns: seq<CheckIn>, now: Timestamp, b: PlannedBlock)
    requires exists i :: 0 <= i < |checkIns| && checkIns[i].blockId == BlockId(b)
    ensures NextBlockNeedingCheckIn(todayBlocks, checkIns, now) != Some(b)
  {
    PendingBlockQualifies(todayBlocks, checkIns, now);
  }

  /** Two blocks of the same goal starting at the same instant share one record: a check-in
      for either keeps both from being offered. */
  lemma SameIdentityShareRecord(todayBlocks: seq<PlannedBlock>, checkIns: seq<CheckIn>, now: Timestamp,
                                b: PlannedBlock, c: PlannedBlock)
    requires b.goalId == c.goalId && b.start == c.start
    requires exists i :: 0 <= i < |checkIns| && checkIns[i].blockId == BlockId(b)
    ensures NextBlockNeedingCheckIn(todayBlocks, checkIns, now) != Some(c)
  {
    assert BlockId(c) == BlockId(b);
    RecordedBlockNotOffered(todayBlocks, checkIns, now, c);
  }

  /** The 09:00-11:00 block (times in milliseconds from a midnight at instant 0) is offered
      at 12:30, not at 13:00 when exactly two hours have passed, and not once recorded. */
  lemma GraceWindowExample()
    ensures var b := PlannedBlock("g1", "Study", Study, 9 * MsPerHour, 11 * MsPerHour, false);
      && NextBlockNeedingCheckIn([b], [], 12 * MsPerHour + 30 * MsPerMinute) == Some(b)
      && NextBlockNeedingCheckIn([b], [], 13 * MsPerHour) == None
      && NextBlockNeedingCheckIn([b], [CheckIn("c1", BlockId(b), "g1", "Study", b.start, b.end, "read", "ok", "go", 0)],
                                 12 * MsPerHour + 30 * MsPerMinute) == None
  {
    var b := PlannedBlock("g1", "Study", Study, 9 * MsPerHour, 11 * MsPerHour, false);
    var r := CheckIn("c1", BlockId(b), "g1", "Study", b.start, b.end, "read", "ok", "go", 0);
    assert AwaitsCheckIn(b, CheckedBlockIds([]), 12 * MsPerHour + 30 * MsPerMinute);
    assert BlockId(b) in CheckedBlockIds([r]) by {
      assert [r][0].blockId == BlockId(b);
    }
  }

  /** A fixed block is never offered, however recently it ended. */
  lemma FixedNeverOffered(todayBlocks: seq<PlannedBlock>, checkIns: seq<CheckIn>, now: Timestamp)
    requires forall i :: 0 <= i < |todayBlocks| ==> todayBlocks[i].isFixed
    ensures NextBlockNeedingCheckIn(todayBlocks, checkIns, now) == None
  {
    PendingBlockQualifies(todayBlocks, checkIns, now);
  }
}
