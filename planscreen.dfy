/** The plan screen's view model (PlanViewModel.swift): the plan fetch with its cache
    fallback, the fourteen selectable dates, and the per-day blocks and capacity. The
    calendar's day arithmetic, "today" and the fetch result are parameters. */
module PlanScreen {
  import opened Wrappers
  import opened Models
  import Cache
  import Network
  import Dashboard

  /** How many dates the picker offers. */
  const PlannedDays: nat := 14

  /** `(0..<n).compactMap { cal.date(byAdding: .day, value: $0, to: start) }`: the dates the
      calendar can form, in order, skipping any it cannot. */
  function DatesFrom(start: Timestamp, n: nat, addDays: (int, Timestamp) -> Option<Timestamp>): (ds: seq<Timestamp>)
    ensures |ds| <= n
    decreases n
  {
    if n == 0 then []
    else
      var earlier := DatesFrom(start, n - 1, addDays);
      match addDays(n - 1, start)
      case None => earlier
      case Some(d) => earlier + [d]
  }

  /** `dates`: fourteen days from the start of today. */
  function Dates(todayStart: Timestamp, addDays: (int, Timestamp) -> Option<Timestamp>): (ds: seq<Timestamp>)
    ensures |ds| <= PlannedDays
  {
    DatesFrom(todayStart, PlannedDays, addDays)
  }

  /** With a calendar that can always add days, there is one date per offset, in order. */
  lemma {:induction false} DatesFromTotal(start: Timestamp, n: nat, addDays: (int, Timestamp) -> Option<Timestamp>)
    requires forall k :: 0 <= k < n ==> addDays(k, start).Some?
    ensures |DatesFrom(start, n, addDays)| == n
    ensures forall k :: 0 <= k < n ==> DatesFrom(start, n, addDays)[k] == addDays(k, start).value
    decreases n
  {
    if n > 0 {
      DatesFromTotal(start, n - 1, addDays);
    }
  }

  /** A calendar whose days all last 24 hours, as in UTC. */
  function FixedLengthDay(k: int, t: Timestamp): Option<Timestamp> {
    Some(t + k * MsPerDay)
  }

  /** In such a calendar the first `n` offsets give consecutive midnights. */
  lemma FixedLengthDates(start: Timestamp, n: nat)
    ensures var ds := DatesFrom(start, n, FixedLengthDay);
      && |ds| == n
      && forall k :: 0 <= k < |ds| ==> ds[k] == start + k * MsPerDay
  {
    DatesFromTotal(start, n, FixedLengthDay);
    var ds := DatesFrom(start, n, FixedLengthDay);
    forall k | 0 <= k < |ds| ensures ds[k] == start + k * MsPerDay {
      assert ds[k] == FixedLengthDay(k, start).value;
    }
  }

  /** So the picker offers the fourteen consecutive midnights from today's. */
  lemma FixedLengthDays(todayStart: Timestamp)
    ensures var ds := Dates(todayStart, FixedLengthDay);
      && |ds| == PlannedDays
      && forall k :: 0 <= k < |ds| ==> ds[k] == todayStart + k * MsPerDay
  {
    FixedLengthDates(todayStart, PlannedDays);
  }

  class PlanViewModel {
    var plan: Option<PlanResponse>
    var isLoading: bool
    var errorMessage: Option<string>
    var selectedDate: Timestamp

    /** `PlanCache.shared`. */
    const cache: Cache.PlanCache

    constructor(cache: Cache.PlanCache, now: Timestamp)
      ensures this.cache == cache
      ensures plan.None? && !isLoading && errorMessage.None? && selectedDate == now
    {
      this.cache := cache;
      plan, isLoading, errorMessage, selectedDate := None, false, None, now;
    }

    /** `loadPlan`: on success shows the fetched plan and saves it; on failure shows the
        error and whatever the cache loads, which may be nothing, in place of the plan
        shown before. */
    method LoadPlan(fetched: Result<PlanResponse, Network.APIError>, cacheWrite: Cache.WriteOutcome)
      modifies this`plan, this`isLoading, this`errorMessage, cache
      ensures !isLoading
      ensures fetched.Success? ==>
        && plan == Some(fetched.value) && errorMessage.None?
        && cache.file == Cache.AfterSave(old(cache.file), fetched.value, cacheWrite)
      ensures fetched.Failure? ==>
        && errorMessage == Some(fetched.error.Description())
        && plan == old(cache.Load())
        && cache.file == old(cache.file)
    {
      isLoading := true;
      errorMessage := None;
      match fetched {
        case Success(p) =>
          plan := Some(p);
          cache.Save(p, cacheWrite);
        case Failure(error) =>
          errorMessage := Some(error.Description());
          plan := cache.Load();
      }
      isLoading := false;
    }

    /** `blocks(for:)`: the plan's blocks starting on the day, by ascending start. */
    function BlocksFor(day: DayRange): seq<PlannedBlock>
      reads this`plan
    {
      match plan
      case None => []
      case Some(p) => Dashboard.SortedByStart(Dashboard.BlocksOn(p.blocks, day))
    }

    /** `capacity(for:)`: the first capacity entry under the day's key. */
    function CapacityFor(key: string): Option<DayCapacity>
      reads this`plan
    {
      match plan
      case None => None
      case Some(p) => Dashboard.CapacityFor(p.capacityByDay, key)
    }
  }

  /** The day's blocks are exactly the plan's blocks starting that day, each as often as in
      the plan, with ascending starts; without a plan there are none. */
  lemma BlocksForDay(vm: PlanViewModel, day: DayRange)
    ensures vm.plan.None? ==> vm.BlocksFor(day) == []
    ensures vm.plan.Some? ==>
      && multiset(vm.BlocksFor(day)) == multiset(Dashboard.BlocksOn(vm.plan.value.blocks, day))
      && (forall b :: b in vm.BlocksFor(day) <==> b in vm.plan.value.blocks && day.Contains(b.start))
      && (forall b :: multiset(vm.BlocksFor(day))[b] ==
            if day.Contains(b.start) then multiset(vm.plan.value.blocks)[b] else 0)
    ensures Dashboard.StartsAscending(vm.BlocksFor(day))
  {
    if vm.plan.Some? {
      Dashboard.SortedDayBlocks(vm.plan.value.blocks, day);
    }
  }

  /** The capacity shown is the first entry with the key, and none exactly when no entry
      has it or there is no plan. */
  lemma CapacityForDay(vm: PlanViewModel, key: string)
    ensures var r := vm.CapacityFor(key);
      && (r.Some? ==>
            && vm.plan.Some? && r.value.date == key
            && exists i :: (0 <= i < |vm.plan.value.capacityByDay| && vm.plan.value.capacityByDay[i] == r.value &&
                 forall j :: 0 <= j < i ==> vm.plan.value.capacityByDay[j].date != key))
      && (r.None? <==> vm.plan.None? || forall c :: c in vm.plan.value.capacityByDay ==> c.date != key)
  {
    if vm.plan.Some? {
      Dashboard.CapacityForIsFirst(vm.plan.value.capacityByDay, key);
    }
  }

  /** A failed refresh after a successful one shows what the cache kept of the first plan,
      cut to whole seconds, and a failed refresh with nothing cached shows no plan at all. */
  method FailedRefreshShowsCachedPlan(onDisk: Option<Cache.StoredFile>, first: PlanResponse, error: Network.APIError)
    returns (afterSuccess: Option<PlanResponse>, afterFailure: Option<PlanResponse>, withoutCache: Option<PlanResponse>)
    ensures afterSuccess == Some(first)
    ensures afterFailure == Some(Cache.WholeSeconds(first))
    ensures withoutCache == None
  {
    var cache := new Cache.PlanCache(onDisk);
    var vm := new PlanViewModel(cache, 0);
    vm.LoadPlan(Success(first), Cache.Written);
    afterSuccess := vm.plan;
    vm.LoadPlan(Failure(error), Cache.Written);
    afterFailure := vm.plan;
    cache.Clear();
    vm.LoadPlan(Failure(error), Cache.Written);
    withoutCache := vm.plan;
  }
}
