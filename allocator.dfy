/** The allocation half of app/services/scheduler.py: `_split_slot`, and `generate_plan`,
    which lays each day's fixed events and goal blocks over a run of days. Float hours
    are `real`; a `timedelta` of some hours is a whole number of seconds, rounded down. */
module Allocator {
  import opened Wrappers
  import opened Schemas
  import opened Intervals
  import opened Scheduler
  import Lists

  // ---- Hours ----

  /** `FreeSlot.hours`. */
  function Hours(slot: Span): real {
    (slot.end - slot.start) as real / 3600.0
  }

  function RMin(a: real, b: real): real {
    if b < a then b else a
  }

  /** `timedelta(hours=h)` in whole seconds. */
  function SecondsIn(h: real): int {
    (h * 3600.0).Floor
  }

  function SpanOf(b: PlannedBlock): Span {
    Span(b.start, b.end)
  }

  function BlockSpanHours(b: PlannedBlock): real {
    Hours(SpanOf(b))
  }

  /** The hours of the blocks added up: what the running totals `day_allocated` and
      `goal_allocated` add per block. */
  function BlockHours(blocks: seq<PlannedBlock>): real {
    Lists.Sum(blocks, BlockSpanHours)
  }

  lemma BlockHoursAppend(a: seq<PlannedBlock>, b: seq<PlannedBlock>)
    ensures BlockHours(a + b) == BlockHours(a) + BlockHours(b)
  {
    Lists.SumAppend(a, b, BlockSpanHours);
  }

  /** `sum(s.hours for s in slots)`. */
  function TotalHours(slots: seq<Span>): real {
    Lists.Sum(slots, Hours)
  }

  /** A goal block of the goal id `id`; a fixed block carries its event's id instead. */
  function OfGoal(id: string): PlannedBlock -> bool {
    (b: PlannedBlock) => !b.isFixed && b.goalId == id
  }

  /** The hours of the goal blocks of `id`: what `goal_allocated[id]` adds up. */
  function GoalHours(blocks: seq<PlannedBlock>, id: string): real {
    BlockHours(Lists.Filter(blocks, OfGoal(id)))
  }

  /** A goal block starting on the day that starts at `dayStart`. */
  function OnDayOf(dayStart: Instant): PlannedBlock -> bool {
    (b: PlannedBlock) => !b.isFixed && dayStart <= b.start < dayStart + SecondsPerDay
  }

  /** The hours of the goal blocks of one day: what that day's `day_allocated` adds up. */
  function DayGoalHours(blocks: seq<PlannedBlock>, dayStart: Instant): real {
    BlockHours(Lists.Filter(blocks, OnDayOf(dayStart)))
  }

  /** The hours of the blocks of each goal id that has a target. */
  function AllocatedIn(blocks: seq<PlannedBlock>, target: map<string, real>): map<string, real> {
    map id | id in target :: GoalHours(blocks, id)
  }

  /** The hours of the blocks picked out of two runs add up. */
  lemma FilteredHoursAppend(a: seq<PlannedBlock>, b: seq<PlannedBlock>, p: PlannedBlock -> bool)
    ensures BlockHours(Lists.Filter(a + b, p)) == BlockHours(Lists.Filter(a, p)) + BlockHours(Lists.Filter(b, p))
  {
    Lists.FilterAppend(a, b, p);
    BlockHoursAppend(Lists.Filter(a, p), Lists.Filter(b, p));
  }

  /** Reordering the blocks does not change the hours of those picked out. */
  lemma FilteredHoursPermutation(a: seq<PlannedBlock>, b: seq<PlannedBlock>, p: PlannedBlock -> bool)
    requires multiset(a) == multiset(b)
    ensures BlockHours(Lists.Filter(a, p)) == BlockHours(Lists.Filter(b, p))
  {
    Lists.FilterPermutation(a, b, p);
    Lists.SumPermutation(Lists.Filter(a, p), Lists.Filter(b, p), BlockSpanHours);
  }

  // ---- Splitting a slot ----

  /** `_split_slot`: the first `min(hours_needed, slot.hours)` of the slot is taken; the
      rest of it is kept when it is longer than `SLOT_MINUTES - 1` minutes. */
  function SplitSlot(slot: Span, hoursNeeded: real): (r: (Span, Option<Span>)) {
    var take := SecondsIn(RMin(hoursNeeded, Hours(slot)));
    var taken := Span(slot.start, slot.start + take);
    if slot.start + take < slot.end - (SlotMinutes - 1) * SecondsPerMinute
    then (taken, Some(Span(slot.start + take, slot.end)))
    else (taken, None)
  }

  /** The taken part starts the slot and lasts the need, or the whole slot when the need
      is larger; the remainder runs from the taken part's end to the slot's end and is
      kept exactly when it is longer than 29 minutes. */
  lemma SplitSlotParts(slot: Span, need: real)
    requires slot.start <= slot.end && 0.0 <= need
    ensures var (taken, rest) := SplitSlot(slot, need);
      && taken.start == slot.start && Within(taken, slot)
      && Hours(taken) <= need
      && (need >= Hours(slot) ==> taken == slot)
      && (need < Hours(slot) ==> taken.end - taken.start == SecondsIn(need))
      && (rest.Some? <==> slot.end - taken.end > (SlotMinutes - 1) * SecondsPerMinute)
      && (rest.Some? ==> rest.value == Span(taken.end, slot.end))
  {
    var len := slot.end - slot.start;
    assert Hours(slot) * 3600.0 == len as real;
    if need >= Hours(slot) {
      assert RMin(need, Hours(slot)) * 3600.0 == len as real;
    }
  }

  /** Splitting gains no time: the taken part and a kept remainder together last no longer
      than the slot; only a remainder of at most 29 minutes is dropped. */
  lemma SplitSlotHours(slot: Span, need: real)
    requires slot.start <= slot.end && 0.0 <= need
    ensures var (taken, rest) := SplitSlot(slot, need);
      && Hours(taken) + (if rest.Some? then Hours(rest.value) else 0.0) <= Hours(slot)
      && (rest.None? ==> Hours(slot) - Hours(taken) <= (SlotMinutes - 1) as real / 60.0)
  {
    SplitSlotParts(slot, need);
  }

  /** A need of at least one second takes something from a non-empty slot. */
  lemma SplitSlotTakes(slot: Span, need: real)
    requires slot.start < slot.end && SecondsIn(need) >= 1
    ensures SplitSlot(slot, need).0.start < SplitSlot(slot, need).0.end
  {
    var len := slot.end - slot.start;
    assert Hours(slot) * 3600.0 == len as real;
  }

  // ---- Placing one goal ----

  /** The slot loop of `generate_plan` as written, over the ordered slots: once the need is
      not positive the slot is kept whole; otherwise the split's taken part becomes a goal
      block, the need drops by its hours and a kept remainder stays free. Returns the
      taken parts and the slots left. */
  function PlaceAsWritten(ordered: seq<Span>, need: real): (r: (seq<Span>, seq<Span>))
    decreases |ordered|
  {
    if ordered == [] then ([], [])
    else if need <= 0.0 then
      var rest := PlaceAsWritten(ordered[1..], need);
      (rest.0, [ordered[0]] + rest.1)
    else
      var (taken, remainder) := SplitSlot(ordered[0], need);
      var rest := PlaceAsWritten(ordered[1..], need - Hours(taken));
      ([taken] + rest.0, (if remainder.Some? then [remainder.value] else []) + rest.1)
  }

  /** Half a second of need left over after the first slot: the split of the next slot
      takes nothing, yet the loop records the empty piece as a goal block, and would
      again in every later slot. */
  lemma EmptyPieceAsWritten()
    ensures PlaceAsWritten([Span(0, 7200), Span(10800, 18000)], 1.5 + 1.0 / 7200.0)
      == ([Span(0, 5400), Span(10800, 10800)], [Span(5400, 7200), Span(10800, 18000)])
  {
    var need := 1.5 + 1.0 / 7200.0;
    assert SecondsIn(RMin(need, Hours(Span(0, 7200)))) == 5400;
    assert SplitSlot(Span(0, 7200), need) == (Span(0, 5400), Some(Span(5400, 7200)));
    assert need - Hours(Span(0, 5400)) == 1.0 / 7200.0;
    assert SecondsIn(RMin(1.0 / 7200.0, Hours(Span(10800, 18000)))) == 0;
    assert SplitSlot(Span(10800, 18000), 1.0 / 7200.0) == (Span(10800, 10800), Some(Span(10800, 18000)));
    var tail := [Span(10800, 18000)];
    assert [Span(0, 7200), Span(10800, 18000)][1..] == tail && tail[1..] == [];
    assert 1.0 / 7200.0 - Hours(Span(10800, 10800)) == 1.0 / 7200.0;
    assert PlaceAsWritten(tail[1..], 1.0 / 7200.0) == ([], []);
    assert [Span(10800, 10800)] + [] == [Span(10800, 10800)] && [Span(10800, 18000)] + [] == tail;
    assert PlaceAsWritten(tail, 1.0 / 7200.0) == ([Span(10800, 10800)], [Span(10800, 18000)]);
    var full := [Span(0, 7200), Span(10800, 18000)];
    assert PlaceAsWritten(full[1..], need - Hours(Span(0, 5400))) == ([Span(10800, 10800)], [Span(10800, 18000)]);
    assert [Span(0, 5400)] + [Span(10800, 10800)] == [Span(0, 5400), Span(10800, 10800)];
    assert [Span(5400, 7200)] + [Span(10800, 18000)] == [Span(5400, 7200), Span(10800, 18000)];
  }

  /** A goal block of `goal`, non-empty, inside one of the slots. */
  ghost predicate GoalPiece(b: PlannedBlock, goal: Goal, slots: seq<Span>) {
    && b == GoalBlock(goal.id, goal.name, goal.category, b.start, b.end)
    && b.start < b.end
    && CoveredBy(SpanOf(b), slots)
  }

  ghost predicate AllNonEmpty(slots: seq<Span>) {
    forall k :: 0 <= k < |slots| ==> slots[k].start < slots[k].end
  }

  /** The slot loop for one goal, with the need compared in whole seconds: once less than
      a second is still needed the slot is kept whole. Every goal block is non-empty and
      inside an ordered slot, every slot left is non-empty and inside an ordered slot, and
      the hours used are those of the blocks, never more than the need; the slots left and
      the hours used together take no more time than the ordered slots had. */
  method AllocateGoal(goal: Goal, ordered: seq<Span>, need: real)
    returns (blocks: seq<PlannedBlock>, free: seq<Span>, used: real)
    requires AllNonEmpty(ordered)
    ensures 0.0 <= used && (0.0 <= need ==> used <= need)
    ensures used == BlockHours(blocks)
    ensures forall i :: 0 <= i < |blocks| ==> GoalPiece(blocks[i], goal, ordered)
    ensures AllNonEmpty(free) && forall i :: 0 <= i < |free| ==> CoveredBy(free[i], ordered)
    ensures TotalHours(free) + used <= TotalHours(ordered)
  {
    var stillNeed := need;
    blocks, free, used := [], [], 0.0;
    for k := 0 to |ordered|
      invariant used + stillNeed == need && 0.0 <= used && (0.0 <= need ==> 0.0 <= stillNeed)
      invariant used == BlockHours(blocks)
      invariant forall i :: 0 <= i < |blocks| ==> GoalPiece(blocks[i], goal, ordered)
      invariant AllNonEmpty(free) && forall i :: 0 <= i < |free| ==> CoveredBy(free[i], ordered)
      invariant HoursKept(free, used, ordered, k)
    {
      var slot := ordered[k];
      if SecondsIn(stillNeed) <= 0 {
        assert Within(slot, ordered[k]);
        HoursKeptWhole(free, used, ordered, k);
        LeftGrows(free, slot, ordered);
        free := free + [slot];
        continue;
      }
      var (taken, remainder) := SplitSlot(slot, stillNeed);
      SplitSlotParts(slot, stillNeed);
      SplitSlotTakes(slot, stillNeed);
      SplitSlotHours(slot, stillNeed);
      HoursKeptSplit(free, used, ordered, k, taken, remainder);
      assert Within(taken, ordered[k]);
      var block := GoalBlock(goal.id, goal.name, goal.category, taken.start, taken.end);
      assert (blocks + [block])[..|blocks|] == blocks;
      assert GoalPiece(block, goal, ordered);
      PiecesGrow(blocks, block, goal, ordered);
      blocks := blocks + [block];
      stillNeed := stillNeed - Hours(taken);
      used := used + Hours(taken);
      if remainder.Some? {
        assert Within(remainder.value, ordered[k]);
        LeftGrows(free, remainder.value, ordered);
        free := free + [remainder.value];
      }
    }
    HoursKeptAll(free, used, ordered);
  }

  /** One more goal block of the goal, inside an ordered slot. */
  lemma PiecesGrow(blocks: seq<PlannedBlock>, b: PlannedBlock, goal: Goal, ordered: seq<Span>)
    requires forall i :: 0 <= i < |blocks| ==> GoalPiece(blocks[i], goal, ordered)
    requires GoalPiece(b, goal, ordered)
    ensures forall i :: 0 <= i < |blocks + [b]| ==> GoalPiece((blocks + [b])[i], goal, ordered)
  {
  }

  /** One more non-empty slot left, inside an ordered slot. */
  lemma LeftGrows(free: seq<Span>, x: Span, ordered: seq<Span>)
    requires AllNonEmpty(free) && forall i :: 0 <= i < |free| ==> CoveredBy(free[i], ordered)
    requires x.start < x.end && CoveredBy(x, ordered)
    ensures AllNonEmpty(free + [x]) && forall i :: 0 <= i < |free + [x]| ==> CoveredBy((free + [x])[i], ordered)
  {
  }

  /** The slots left and the hours used take no more time than the first `k` ordered
      slots had. */
  ghost predicate HoursKept(free: seq<Span>, used: real, ordered: seq<Span>, k: int)
    requires 0 <= k <= |ordered|
  {
    TotalHours(free) + used <= TotalHours(ordered[..k])
  }

  /** A slot kept whole. */
  lemma HoursKeptWhole(free: seq<Span>, used: real, ordered: seq<Span>, k: int)
    requires 0 <= k < |ordered| && HoursKept(free, used, ordered, k)
    ensures HoursKept(free + [ordered[k]], used, ordered, k + 1)
  {
    assert ordered[..k + 1] == ordered[..k] + [ordered[k]];
    Lists.SumSnoc(ordered[..k], ordered[k], Hours);
    Lists.SumSnoc(free, ordered[k], Hours);
  }

  /** A slot split: its taken part used, a kept remainder left. */
  lemma HoursKeptSplit(free: seq<Span>, used: real, ordered: seq<Span>, k: int, taken: Span, rest: Option<Span>)
    requires 0 <= k < |ordered| && HoursKept(free, used, ordered, k)
    requires Hours(taken) + (if rest.Some? then Hours(rest.value) else 0.0) <= Hours(ordered[k])
    ensures HoursKept(if rest.Some? then free + [rest.value] else free, used + Hours(taken), ordered, k + 1)
  {
    assert ordered[..k + 1] == ordered[..k] + [ordered[k]];
    Lists.SumSnoc(ordered[..k], ordered[k], Hours);
    if rest.Some? {
      Lists.SumSnoc(free, rest.value, Hours);
    }
  }

  lemma HoursKeptAll(free: seq<Span>, used: real, ordered: seq<Span>)
    requires HoursKept(free, used, ordered, |ordered|)
    ensures TotalHours(free) + used <= TotalHours(ordered)
  {
    assert ordered[..|ordered|] == ordered;
  }

  // ---- Preferred windows first ----

  /** Some preferred window holds the slot: `any(_slot_in_window(s, w) for w in windows)`. */
  predicate InAnyWindow(slot: Span, windows: seq<TimeWindow>) {
    exists w :: w in windows && SlotInWindowAsWritten(slot, w)
  }

  function InWindows(windows: seq<TimeWindow>): Span -> bool {
    s => InAnyWindow(s, windows)
  }

  function NotAmong(chosen: seq<Span>): Span -> bool {
    s => s !in chosen
  }

  /** `ordered`: the free slots inside a preferred window, then the slots not among those,
      each group in its original order. */
  function PreferredFirst(slots: seq<Span>, windows: seq<TimeWindow>): seq<Span> {
    var preferred := Lists.Filter(slots, InWindows(windows));
    preferred + Lists.Filter(slots, NotAmong(preferred))
  }

  /** The ordering rearranges the free slots without losing or repeating one, and every
      slot in a preferred window comes before every slot outside them. */
  lemma PreferredFirstOrders(slots: seq<Span>, windows: seq<TimeWindow>)
    ensures multiset(PreferredFirst(slots, windows)) == multiset(slots)
    ensures var ordered := PreferredFirst(slots, windows);
      forall i, j :: 0 <= i < j < |ordered| && InAnyWindow(ordered[j], windows) ==> InAnyWindow(ordered[i], windows)
  {
    var p := InWindows(windows);
    var preferred := Lists.Filter(slots, p);
    var rest := Lists.Filter(slots, NotAmong(preferred));
    var ordered := preferred + rest;
    Lists.FilterKeeps(slots, p);
    Lists.FilterKeeps(slots, NotAmong(preferred));
    forall i | 0 <= i < |slots| ensures NotAmong(preferred)(slots[i]) == !p(slots[i]) {
    }
    Lists.FilterComplement(slots, p, NotAmong(preferred));
    forall m | 0 <= m < |rest| ensures !p(rest[m]) {
      var k :| 0 <= k < |slots| && slots[k] == rest[m];
    }
    forall i, j | 0 <= i < j < |ordered| && InAnyWindow(ordered[j], windows) ensures InAnyWindow(ordered[i], windows) {
      assert p(preferred[i]);
    }
  }

  /** Reordering keeps each slot non-empty and inside the day's slots. */
  lemma PreferredFirstCovered(spare: seq<Span>, windows: seq<TimeWindow>, slots: seq<Span>)
    requires AllNonEmpty(spare) && forall k :: 0 <= k < |spare| ==> CoveredBy(spare[k], slots)
    ensures var ordered := PreferredFirst(spare, windows);
      AllNonEmpty(ordered) && forall k :: 0 <= k < |ordered| ==> CoveredBy(ordered[k], slots)
  {
    var ordered := PreferredFirst(spare, windows);
    PreferredFirstOrders(spare, windows);
    forall k | 0 <= k < |ordered| ensures ordered[k].start < ordered[k].end && CoveredBy(ordered[k], slots) {
      assert ordered[k] in multiset(spare);
      var m :| 0 <= m < |spare| && spare[m] == ordered[k];
    }
  }

  // ---- Working goals ----

  /** The id the simulated goal of a what-if plan gets. */
  const SimulatedId: string := "__simulated__"

  function NegPriority(g: Goal): int {
    -g.priorityWeight
  }

  /** `working_goals`: the goals, plus the simulated goal when there is one, sorted by
      priority, highest first; goals of equal priority keep their order. */
  function WorkingGoals(goals: seq<Goal>, simulate: Option<GoalCreate>, now: Instant): seq<Goal> {
    var all := if simulate.Some? then goals + [GoalFrom(simulate.value, SimulatedId, now)] else goals;
    Lists.SortBy(all, NegPriority)
  }

  /** Working goals of the same priority `w` keep their order, the simulated goal after the
      stored ones. */
  lemma WorkingGoalsStable(goals: seq<Goal>, simulate: Option<GoalCreate>, now: Instant, w: int)
    ensures var all := if simulate.Some? then goals + [GoalFrom(simulate.value, SimulatedId, now)] else goals;
      Lists.Filter(WorkingGoals(goals, simulate, now), Lists.HasKey(NegPriority, -w)) ==
      Lists.Filter(all, Lists.HasKey(NegPriority, -w))
  {
    var all := if simulate.Some? then goals + [GoalFrom(simulate.value, SimulatedId, now)] else goals;
    Lists.SortByStable(all, NegPriority, -w);
  }

  /** The working goals are the goals and the simulated one, by non-increasing priority. */
  lemma WorkingGoalsOrder(goals: seq<Goal>, simulate: Option<GoalCreate>, now: Instant)
    ensures var working := WorkingGoals(goals, simulate, now);
      && multiset(working) == multiset(goals) + (if simulate.Some? then multiset{GoalFrom(simulate.value, SimulatedId, now)} else multiset{})
      && forall i, j :: 0 <= i < j < |working| ==> working[i].priorityWeight >= working[j].priorityWeight
  {
    var all := if simulate.Some? then goals + [GoalFrom(simulate.value, SimulatedId, now)] else goals;
    Lists.SortBySorts(all, NegPriority);
  }

  /** `goal_allocated` before the first day: every goal id at zero hours. */
  function NoAllocations(goals: seq<Goal>): map<string, real> {
    map g | g in goals :: g.id := 0.0
  }

  /** `weekly_target`: each goal id's weekly target hours. */
  function Targets(goals: seq<Goal>): map<string, real>
    decreases |goals|
  {
    if goals == [] then map[]
    else Targets(goals[..|goals| - 1])[goals[|goals| - 1].id := goals[|goals| - 1].weeklyTargetHours]
  }

  /** The targets have a key per goal id and no other. */
  lemma {:induction false} TargetsOf(goals: seq<Goal>)
    ensures Targets(goals).Keys == set g | g in goals :: g.id
    decreases |goals|
  {
    if goals != [] {
      var p, last := goals[..|goals| - 1], goals[|goals| - 1];
      TargetsOf(p);
      assert goals == p + [last];
      assert forall g :: g in goals <==> g in p || g == last;
    }
  }

  /** Of two goals sharing an id, the later one's target is kept, as in a dict
      comprehension. */
  lemma {:induction false} TargetsLastWins(goals: seq<Goal>)
    ensures forall i :: 0 <= i < |goals| && (forall j :: i < j < |goals| ==> goals[j].id != goals[i].id) ==>
      goals[i].id in Targets(goals) && Targets(goals)[goals[i].id] == goals[i].weeklyTargetHours
    decreases |goals|
  {
    if goals != [] {
      var p, last := goals[..|goals| - 1], goals[|goals| - 1];
      TargetsLastWins(p);
      forall i | 0 <= i < |goals| - 1 && (forall j :: i < j < |goals| ==> goals[j].id != goals[i].id)
        ensures goals[i].id in Targets(goals) && Targets(goals)[goals[i].id] == goals[i].weeklyTargetHours
      {
        assert p[i] == goals[i];
        assert forall j :: i < j < |p| ==> p[j].id != p[i].id;
      }
    }
  }

  // ---- One day's goal loop ----

  /** A day's allocation, when anything was allocated, keeps within both daily limits. */
  ghost predicate WithinDailyLimits(hours: real, c: CapacityConstraints) {
    0.0 <= hours && (hours > 0.0 ==> hours <= c.dailyMaxDeepWorkHours && hours <= c.dailyMaxTotalScheduledHours)
  }

  /** A non-empty goal block of one of the goals, inside one of the slots. */
  ghost predicate PlacedFor(b: PlannedBlock, working: seq<Goal>, slots: seq<Span>) {
    && (exists g :: g in working && b == GoalBlock(g.id, g.name, g.category, b.start, b.end))
    && b.start < b.end
    && CoveredBy(SpanOf(b), slots)
  }

  /** One goal's blocks, placed in slots that lie inside the day's slots, are placed in the
      day's slots. */
  lemma GoalPiecesPlaced(blocks: seq<PlannedBlock>, goal: Goal, working: seq<Goal>, ordered: seq<Span>, slots: seq<Span>)
    requires goal in working
    requires forall i :: 0 <= i < |blocks| ==> GoalPiece(blocks[i], goal, ordered)
    requires forall k :: 0 <= k < |ordered| ==> CoveredBy(ordered[k], slots)
    ensures forall i :: 0 <= i < |blocks| ==> PlacedFor(blocks[i], working, slots)
  {
    forall i | 0 <= i < |blocks| ensures PlacedFor(blocks[i], working, slots) {
      CoveredTransitive(SpanOf(blocks[i]), ordered, slots);
    }
  }

  /** What is left of slots that lie inside the day's slots lies inside them too. */
  lemma LeftCovered(left: seq<Span>, ordered: seq<Span>, slots: seq<Span>)
    requires forall i :: 0 <= i < |left| ==> CoveredBy(left[i], ordered)
    requires forall k :: 0 <= k < |ordered| ==> CoveredBy(ordered[k], slots)
    ensures forall i :: 0 <= i < |left| ==> CoveredBy(left[i], slots)
  {
    forall i | 0 <= i < |left| ensures CoveredBy(left[i], slots) {
      CoveredTransitive(left[i], ordered, slots);
    }
  }

  /** The allocations only grow, and none that was within its target passes it. */
  ghost predicate Raised(before: map<string, real>, after: map<string, real>, target: map<string, real>) {
    && after.Keys == before.Keys == target.Keys
    && forall id :: id in before ==> before[id] <= after[id] && (before[id] <= target[id] ==> after[id] <= target[id])
  }

  /** Adding hours to one goal, within what is left of its target, keeps the allocations raised. */
  lemma RaiseAllocation(before: map<string, real>, after: map<string, real>, target: map<string, real>, id: string, used: real)
    requires Raised(before, after, target) && id in after
    requires 0.0 <= used && after[id] + used <= target[id]
    ensures Raised(before, after[id := after[id] + used], target)
  {
  }

  /** The hours the goal loop has handed out so far on a day: within both limits, equal to
      those of the blocks, and raising each goal's allocation within its target. */
  ghost predicate DayHours(c: CapacityConstraints, goalAllocated: map<string, real>, target: map<string, real>,
                           blocks: seq<PlannedBlock>, after: map<string, real>, dayAllocated: real) {
    && WithinDailyLimits(dayAllocated, c) && dayAllocated == BlockHours(blocks)
    && Raised(goalAllocated, after, target)
  }

  /** Where the goal loop has put blocks so far on a day: inside the day's slots, as are the
      spare slots left. */
  ghost predicate DayPlacement(working: seq<Goal>, slots: seq<Span>, blocks: seq<PlannedBlock>, spare: seq<Span>) {
    && (forall k :: 0 <= k < |blocks| ==> PlacedFor(blocks[k], working, slots))
    && AllNonEmpty(spare) && forall k :: 0 <= k < |spare| ==> CoveredBy(spare[k], slots)
  }

  /** One goal's turn, in hours: no more than the day's limits and the goal's target leave. */
  lemma GoalHoursStep(c: CapacityConstraints, goalAllocated: map<string, real>, target: map<string, real>,
                      blocks: seq<PlannedBlock>, after: map<string, real>, dayAllocated: real,
                      id: string, taken: seq<PlannedBlock>, used: real)
    requires DayHours(c, goalAllocated, target, blocks, after, dayAllocated) && id in after
    requires 0.0 <= used && used == BlockHours(taken)
    requires dayAllocated + used <= c.dailyMaxDeepWorkHours && dayAllocated + used <= c.dailyMaxTotalScheduledHours
    requires after[id] + used <= target[id]
    ensures DayHours(c, goalAllocated, target, blocks + taken, after[id := after[id] + used], dayAllocated + used)
  {
    BlockHoursAppend(blocks, taken);
    RaiseAllocation(goalAllocated, after, target, id, used);
  }

  /** One goal's turn, in place: its pieces, taken from the spare slots in preference
      order, and what is left of those slots stay inside the day's slots. */
  lemma GoalPlacementStep(working: seq<Goal>, slots: seq<Span>, blocks: seq<PlannedBlock>, spare: seq<Span>,
                          goal: Goal, ordered: seq<Span>, taken: seq<PlannedBlock>, left: seq<Span>)
    requires DayPlacement(working, slots, blocks, spare) && goal in working
    requires forall k :: 0 <= k < |ordered| ==> CoveredBy(ordered[k], slots)
    requires forall i :: 0 <= i < |taken| ==> GoalPiece(taken[i], goal, ordered)
    requires AllNonEmpty(left) && forall i :: 0 <= i < |left| ==> CoveredBy(left[i], ordered)
    ensures DayPlacement(working, slots, blocks + taken, left)
  {
    GoalPiecesPlaced(taken, goal, working, ordered, slots);
    PlacedAppend(blocks, taken, working, slots);
    LeftCovered(left, ordered, slots);
  }

  /** What the hours handed out so far on a day account for: each goal's allocation has
      grown by the hours of its blocks, and the spare slots and the day's allocation
      together take no more time than the day's slots had. */
  ghost predicate DayAccounts(goalAllocated: map<string, real>, after: map<string, real>, slots: seq<Span>,
                              blocks: seq<PlannedBlock>, spare: seq<Span>, dayAllocated: real) {
    && (forall id {:trigger GoalHours(blocks, id)} :: id in goalAllocated && id in after ==> after[id] == goalAllocated[id] + GoalHours(blocks, id))
    && TotalHours(spare) + dayAllocated <= TotalHours(slots)
  }

  /** One goal's turn, in what it accounts for: the goal's allocation grows by the hours
      of its own new blocks and no other goal's changes, and what the goal used comes out
      of the spare slots, reordered but not changed in total. */
  lemma GoalAccountStep(goalAllocated: map<string, real>, after: map<string, real>, slots: seq<Span>,
                        blocks: seq<PlannedBlock>, spare: seq<Span>, dayAllocated: real,
                        goal: Goal, ordered: seq<Span>, taken: seq<PlannedBlock>, left: seq<Span>, used: real)
    requires DayAccounts(goalAllocated, after, slots, blocks, spare, dayAllocated) && goal.id in after
    requires ordered == PreferredFirst(spare, goal.preferredTimeWindows)
    requires used == BlockHours(taken) && forall i :: 0 <= i < |taken| ==> GoalPiece(taken[i], goal, ordered)
    requires TotalHours(left) + used <= TotalHours(ordered)
    ensures DayAccounts(goalAllocated, after[goal.id := after[goal.id] + used], slots, blocks + taken, left, dayAllocated + used)
  {
    PreferredFirstOrders(spare, goal.preferredTimeWindows);
    Lists.SumPermutation(ordered, spare, Hours);
    var after' := after[goal.id := after[goal.id] + used];
    forall id | id in goalAllocated && id in after' ensures after'[id] == goalAllocated[id] + GoalHours(blocks + taken, id) {
      FilteredHoursAppend(blocks, taken, OfGoal(id));
      assert after[id] == goalAllocated[id] + GoalHours(blocks, id);
      if id == goal.id {
        forall i | 0 <= i < |taken| ensures OfGoal(id)(taken[i]) {
          assert GoalPiece(taken[i], goal, ordered);
        }
        Lists.FilterAll(taken, OfGoal(id));
      } else {
        forall i | 0 <= i < |taken| ensures !OfGoal(id)(taken[i]) {
          assert GoalPiece(taken[i], goal, ordered);
        }
        Lists.FilterNone(taken, OfGoal(id));
      }
    }
  }

  /** What the goal loop has built so far on a day. */
  ghost predicate DaySoFar(working: seq<Goal>, slots: seq<Span>, c: CapacityConstraints, goalAllocated: map<string, real>,
                           target: map<string, real>, blocks: seq<PlannedBlock>, spare: seq<Span>,
                           after: map<string, real>, dayAllocated: real) {
    && DayHours(c, goalAllocated, target, blocks, after, dayAllocated)
    && DayPlacement(working, slots, blocks, spare)
    && DayAccounts(goalAllocated, after, slots, blocks, spare, dayAllocated)
  }

  /** One goal's turn, taking from the spare slots in preference order what the slot loop
      for the goal hands back, within the day's limits and the goal's target. */
  lemma DayGoalStep(working: seq<Goal>, slots: seq<Span>, c: CapacityConstraints, goalAllocated: map<string, real>,
                    target: map<string, real>, blocks: seq<PlannedBlock>, spare: seq<Span>,
                    after: map<string, real>, dayAllocated: real,
                    goal: Goal, ordered: seq<Span>, taken: seq<PlannedBlock>, left: seq<Span>, used: real)
    requires DaySoFar(working, slots, c, goalAllocated, target, blocks, spare, after, dayAllocated)
    requires goal in working && goal.id in after
    requires ordered == PreferredFirst(spare, goal.preferredTimeWindows)
    requires 0.0 <= used && used == BlockHours(taken)
    requires forall i :: 0 <= i < |taken| ==> GoalPiece(taken[i], goal, ordered)
    requires AllNonEmpty(left) && forall i :: 0 <= i < |left| ==> CoveredBy(left[i], ordered)
    requires TotalHours(left) + used <= TotalHours(ordered)
    requires dayAllocated + used <= c.dailyMaxDeepWorkHours && dayAllocated + used <= c.dailyMaxTotalScheduledHours
    requires after[goal.id] + used <= target[goal.id]
    ensures DaySoFar(working, slots, c, goalAllocated, target, blocks + taken, left,
                     after[goal.id := after[goal.id] + used], dayAllocated + used)
  {
    PreferredFirstCovered(spare, goal.preferredTimeWindows, slots);
    GoalHoursStep(c, goalAllocated, target, blocks, after, dayAllocated, goal.id, taken, used);
    GoalPlacementStep(working, slots, blocks, spare, goal, ordered, taken, left);
    GoalAccountStep(goalAllocated, after, slots, blocks, spare, dayAllocated, goal, ordered, taken, left, used);
  }

  lemma PlacedAppend(blocks: seq<PlannedBlock>, taken: seq<PlannedBlock>, working: seq<Goal>, slots: seq<Span>)
    requires forall k :: 0 <= k < |blocks| ==> PlacedFor(blocks[k], working, slots)
    requires forall k :: 0 <= k < |taken| ==> PlacedFor(taken[k], working, slots)
    ensures forall k :: 0 <= k < |blocks + taken| ==> PlacedFor((blocks + taken)[k], working, slots)
  {
    var all := blocks + taken;
    forall k | 0 <= k < |all| ensures PlacedFor(all[k], working, slots) {
      if k < |blocks| {
        assert all[k] == blocks[k];
      } else {
        assert all[k] == taken[k - |blocks|];
      }
    }
  }

  /** One goal's turn on a day: the spare slots in preference order, handed to the slot
      loop for the goal with what the goal can still get that day. */
  method GoalTurn(working: seq<Goal>, slots: seq<Span>, c: CapacityConstraints, goalAllocated: map<string, real>,
                  target: map<string, real>, blocks: seq<PlannedBlock>, spare: seq<Span>,
                  after: map<string, real>, dayAllocated: real, goal: Goal, canAllocate: real)
    returns (taken: seq<PlannedBlock>, left: seq<Span>, used: real)
    requires DaySoFar(working, slots, c, goalAllocated, target, blocks, spare, after, dayAllocated)
    requires goal in working && goal.id in after && 0.0 <= canAllocate && after[goal.id] + canAllocate <= target[goal.id]
    requires dayAllocated + canAllocate <= c.dailyMaxDeepWorkHours && dayAllocated + canAllocate <= c.dailyMaxTotalScheduledHours
    ensures 0.0 <= used <= canAllocate
    ensures DaySoFar(working, slots, c, goalAllocated, target, blocks + taken, left,
                     after[goal.id := after[goal.id] + used], dayAllocated + used)
  {
    var ordered := PreferredFirst(spare, goal.preferredTimeWindows);
    PreferredFirstCovered(spare, goal.preferredTimeWindows, slots);
    taken, left, used := AllocateGoal(goal, ordered, canAllocate);
    DayGoalStep(working, slots, c, goalAllocated, target, blocks, spare, after, dayAllocated, goal, ordered, taken, left, used);
  }

  /** The goal loop of one day, highest priority first. A goal gets at most 1.5 times its
      daily share of the weekly target, never more than what is left of that target, and
      never more than the day's deep-work and scheduled limits leave; a goal with nothing
      to get, or a day at its deep-work limit, skips the goal, and a day at its scheduled
      limit ends the loop. The day's allocated hours are those of its blocks and stay
      within both limits; no goal is pushed past its weekly target; every block belongs
      to a working goal and lies inside a free slot, and so does every slot left. */
  method AllocateDay(working: seq<Goal>, slots: seq<Span>, c: CapacityConstraints,
                     goalAllocated: map<string, real>, target: map<string, real>)
    returns (blocks: seq<PlannedBlock>, spare: seq<Span>, after: map<string, real>, dayAllocated: real)
    requires target.Keys == goalAllocated.Keys
    requires forall i :: 0 <= i < |working| ==> working[i].id in target
    requires AllNonEmpty(slots)
    ensures Raised(goalAllocated, after, target)
    ensures WithinDailyLimits(dayAllocated, c) && dayAllocated == BlockHours(blocks)
    ensures forall i :: 0 <= i < |blocks| ==> PlacedFor(blocks[i], working, slots)
    ensures AllNonEmpty(spare) && forall i :: 0 <= i < |spare| ==> CoveredBy(spare[i], slots)
    ensures forall id {:trigger GoalHours(blocks, id)} :: id in goalAllocated ==> after[id] == goalAllocated[id] + GoalHours(blocks, id)
    ensures TotalHours(spare) + dayAllocated <= TotalHours(slots)
  {
    blocks, spare, after, dayAllocated := [], slots, goalAllocated, 0.0;
    var deepUsed := 0.0;
    forall k | 0 <= k < |slots| ensures CoveredBy(slots[k], slots) {
      assert Within(slots[k], slots[k]);
    }
    for i := 0 to |working|
      invariant deepUsed == dayAllocated
      invariant DaySoFar(working, slots, c, goalAllocated, target, blocks, spare, after, dayAllocated)
    {
      var goal := working[i];
      var weeklyFraction := target[goal.id] / 7.0;
      var remaining := target[goal.id] - after[goal.id];
      var dailyBudget := RMin(weeklyFraction * 1.5, remaining);
      if dailyBudget <= 0.0 || deepUsed >= c.dailyMaxDeepWorkHours {
        continue;
      }
      if dayAllocated >= c.dailyMaxTotalScheduledHours {
        break;
      }
      var canAllocate := RMin(RMin(dailyBudget, c.dailyMaxDeepWorkHours - deepUsed), c.dailyMaxTotalScheduledHours - dayAllocated);
      assert 0.0 < canAllocate <= remaining;
      assert dayAllocated + canAllocate <= c.dailyMaxDeepWorkHours && dayAllocated + canAllocate <= c.dailyMaxTotalScheduledHours;
      var taken, left, used := GoalTurn(working, slots, c, goalAllocated, target, blocks, spare, after, dayAllocated, goal, canAllocate);
      blocks := blocks + taken;
      spare := left;
      after := after[goal.id := after[goal.id] + used];
      deepUsed := deepUsed + used;
      dayAllocated := dayAllocated + used;
    }
  }

  // ---- Fixed blocks ----

  /** `day_start` of day `d`: midnight of `start_date + d days`. */
  function DayStartOf(start: Instant, d: int): Instant {
    MidnightOf(start + d * SecondsPerDay)
  }

  /** The days follow one another: day `d` starts `d - k` whole days after day `k`. */
  lemma DayStartsApart(start: Instant, k: int, d: int)
    ensures DayStartOf(start, d) == DayStartOf(start, k) + (d - k) * SecondsPerDay
  {
    var m := DayStartOf(start, k);
    var r := start + k * SecondsPerDay - m;
    MidnightIsMidnight(start + k * SecondsPerDay);
    var q := m / SecondsPerDay;
    assert m == q * SecondsPerDay;
    assert m + (d - k) * SecondsPerDay == (q + d - k) * SecondsPerDay;
    assert start + d * SecondsPerDay == m + (d - k) * SecondsPerDay + r;
    OnDay(m + (d - k) * SecondsPerDay, r);
  }

  /** The event ends after the day starts and starts before it ends. */
  predicate OverlapsDay(e: CalendarEvent, dayStart: Instant) {
    e.end > dayStart && e.start < dayStart + SecondsPerDay
  }

  function OverlapsDayOf(dayStart: Instant): CalendarEvent -> bool {
    e => OverlapsDay(e, dayStart)
  }

  /** `day_events`: the fixed events overlapping the day, in their order. */
  function DayEvents(events: seq<CalendarEvent>, dayStart: Instant): seq<CalendarEvent> {
    Lists.Filter(events, OverlapsDayOf(dayStart))
  }

  /** The fixed block of an event on a day: the event clipped to the day, under its id
      and title, as a personal block. */
  function FixedBlock(e: CalendarEvent, dayStart: Instant): PlannedBlock {
    PlannedBlock(e.id, e.title, Personal, Max(e.start, dayStart), Min(e.end, dayStart + SecondsPerDay), true)
  }

  function FixedBlocksFor(events: seq<CalendarEvent>, dayStart: Instant): seq<PlannedBlock>
    decreases |events|
  {
    if events == [] then []
    else FixedBlocksFor(events[..|events| - 1], dayStart) + [FixedBlock(events[|events| - 1], dayStart)]
  }

  /** The fixed blocks of the first `days` days, day by day. */
  function FixedBlocksUpTo(start: Instant, events: seq<CalendarEvent>, days: int): seq<PlannedBlock>
    decreases days
  {
    if days <= 0 then []
    else FixedBlocksUpTo(start, events, days - 1) + FixedBlocksFor(DayEvents(events, DayStartOf(start, days - 1)), DayStartOf(start, days - 1))
  }

  /** A fixed block is marked fixed and lies inside its day; when the event is non-empty
      and overlaps the day, so is the block. */
  lemma FixedBlockClipped(e: CalendarEvent, dayStart: Instant)
    ensures var b := FixedBlock(e, dayStart);
      && b.isFixed && b.goalId == e.id && b.goalName == e.title
      && dayStart <= b.start && b.end <= dayStart + SecondsPerDay
      && (e.start < e.end && OverlapsDay(e, dayStart) ==> b.start < b.end)
  {
  }

  /** A day gets one fixed block per event, in the events' order. */
  lemma {:induction false} FixedBlocksForEach(events: seq<CalendarEvent>, dayStart: Instant)
    ensures |FixedBlocksFor(events, dayStart)| == |events|
    ensures forall i :: 0 <= i < |events| ==> FixedBlocksFor(events, dayStart)[i] == FixedBlock(events[i], dayStart)
    decreases |events|
  {
    if events != [] {
      FixedBlocksForEach(events[..|events| - 1], dayStart);
    }
  }

  /** `b` is the block of an event overlapping one of the first `days` days. */
  ghost predicate OverlapBlock(b: PlannedBlock, start: Instant, events: seq<CalendarEvent>, days: int) {
    exists d, e :: 0 <= d < days && e in events && OverlapsDay(e, DayStartOf(start, d)) && b == FixedBlock(e, DayStartOf(start, d))
  }

  /** Each fixed block of the first `days` days is the block of an event/day overlap. */
  lemma {:induction false} FixedBlocksSound(start: Instant, events: seq<CalendarEvent>, days: int)
    ensures forall b :: b in FixedBlocksUpTo(start, events, days) ==> OverlapBlock(b, start, events, days)
    decreases days
  {
    if days > 0 {
      var ds := DayStartOf(start, days - 1);
      var dayEvents := DayEvents(events, ds);
      var today := FixedBlocksFor(dayEvents, ds);
      FixedBlocksSound(start, events, days - 1);
      FixedBlocksForEach(dayEvents, ds);
      Lists.FilterKeeps(events, OverlapsDayOf(ds));
      forall b | b in FixedBlocksUpTo(start, events, days) ensures OverlapBlock(b, start, events, days) {
        if b in today {
          var i :| 0 <= i < |today| && today[i] == b;
          assert b == FixedBlock(dayEvents[i], ds) && OverlapsDay(dayEvents[i], ds);
        } else {
          assert OverlapBlock(b, start, events, days - 1);
        }
      }
    }
  }

  /** Every event overlapping a day has its block among that day's fixed blocks. */
  lemma DayBlocksComplete(events: seq<CalendarEvent>, ds: Instant)
    ensures forall e :: e in events && OverlapsDay(e, ds) ==> FixedBlock(e, ds) in FixedBlocksFor(DayEvents(events, ds), ds)
  {
    var dayEvents := DayEvents(events, ds);
    var today := FixedBlocksFor(dayEvents, ds);
    FixedBlocksForEach(dayEvents, ds);
    Lists.FilterKeeps(events, OverlapsDayOf(ds));
    forall e | e in events && OverlapsDay(e, ds) ensures FixedBlock(e, ds) in today {
      var k :| 0 <= k < |events| && events[k] == e;
      var i :| 0 <= i < |dayEvents| && dayEvents[i] == e;
      assert today[i] == FixedBlock(e, ds);
    }
  }

  /** Every event/day overlap within the first `days` days has its fixed block. */
  lemma {:induction false} FixedBlocksComplete(start: Instant, events: seq<CalendarEvent>, days: int)
    ensures forall d, e :: 0 <= d < days && e in events && OverlapsDay(e, DayStartOf(start, d)) ==>
      FixedBlock(e, DayStartOf(start, d)) in FixedBlocksUpTo(start, events, days)
    decreases days
  {
    if days > 0 {
      FixedBlocksComplete(start, events, days - 1);
      DayBlocksComplete(events, DayStartOf(start, days - 1));
    }
  }

  /** The inner loop over `day_events`. */
  method FixedBlocksOfDay(dayEvents: seq<CalendarEvent>, dayStart: Instant) returns (fixed: seq<PlannedBlock>)
    ensures fixed == FixedBlocksFor(dayEvents, dayStart)
  {
    fixed := [];
    for i := 0 to |dayEvents|
      invariant fixed == FixedBlocksFor(dayEvents[..i], dayStart)
    {
      var ev := dayEvents[i];
      fixed := fixed + [PlannedBlock(ev.id, ev.title, Personal, Max(ev.start, dayStart), Min(ev.end, dayStart + SecondsPerDay), true)];
      assert dayEvents[..i + 1][..i] == dayEvents[..i];
    }
    assert dayEvents[..|dayEvents|] == dayEvents;
  }

  // ---- Unmet goals ----

  /** `goal_allocated.get(id, 0.0)`. */
  function AllocatedOf(goalAllocated: map<string, real>, id: string): real {
    if id in goalAllocated then goalAllocated[id] else 0.0
  }

  /** `target` of the unmet loop: the weekly target scaled to the number of days. */
  function HorizonTarget(weekly: real, days: int): real {
    weekly * (days as real / 7.0)
  }

  /** The unmet entries of the goals, in their order: one per goal more than half an hour
      short of its target over the days. */
  function UnmetEntries(working: seq<Goal>, goalAllocated: map<string, real>, target: map<string, real>, days: int): seq<UnmetGoal>
    requires forall i :: 0 <= i < |working| ==> working[i].id in target
    decreases |working|
  {
    if working == [] then []
    else
      var g := working[|working| - 1];
      var alloc := AllocatedOf(goalAllocated, g.id);
      var t := HorizonTarget(target[g.id], days);
      UnmetEntries(working[..|working| - 1], goalAllocated, target, days)
        + (if alloc < t - 0.5 then [UnmetGoal(g.id, g.name, t, alloc, t - alloc)] else [])
  }

  /** An entry for a goal: its target over the days, what it got, and a deficit of more
      than half an hour. */
  ghost predicate UnmetEntryOf(u: UnmetGoal, g: Goal, goalAllocated: map<string, real>, target: map<string, real>, days: int) {
    && g.id in target
    && u.goalId == g.id && u.goalName == g.name
    && u.targetHours == HorizonTarget(target[g.id], days)
    && u.allocatedHours == AllocatedOf(goalAllocated, g.id)
    && u.deficitHours == u.targetHours - u.allocatedHours > 0.5
  }

  ghost predicate EntriesOfGoals(unmet: seq<UnmetGoal>, working: seq<Goal>, goalAllocated: map<string, real>, target: map<string, real>, days: int) {
    forall k :: 0 <= k < |unmet| ==> exists i :: 0 <= i < |working| && UnmetEntryOf(unmet[k], working[i], goalAllocated, target, days)
  }

  ghost predicate ShortGoalsListed(unmet: seq<UnmetGoal>, working: seq<Goal>, goalAllocated: map<string, real>, target: map<string, real>, days: int) {
    forall i ::
      (0 <= i < |working| && working[i].id in target &&
       AllocatedOf(goalAllocated, working[i].id) < HorizonTarget(target[working[i].id], days) - 0.5) ==>
      exists k :: 0 <= k < |unmet| && UnmetEntryOf(unmet[k], working[i], goalAllocated, target, days)
  }

  /** Every entry is that of one of the goals. */
  lemma {:induction false} UnmetEntriesSound(working: seq<Goal>, goalAllocated: map<string, real>, target: map<string, real>, days: int)
    requires forall i :: 0 <= i < |working| ==> working[i].id in target
    ensures EntriesOfGoals(UnmetEntries(working, goalAllocated, target, days), working, goalAllocated, target, days)
    decreases |working|
  {
    if working != [] {
      var p := working[..|working| - 1];
      var unmet := UnmetEntries(working, goalAllocated, target, days);
      var prev := UnmetEntries(p, goalAllocated, target, days);
      UnmetEntriesSound(p, goalAllocated, target, days);
      var g := working[|working| - 1];
      assert unmet == prev + (if AllocatedOf(goalAllocated, g.id) < HorizonTarget(target[g.id], days) - 0.5
        then [UnmetGoal(g.id, g.name, HorizonTarget(target[g.id], days), AllocatedOf(goalAllocated, g.id), HorizonTarget(target[g.id], days) - AllocatedOf(goalAllocated, g.id))] else []);
      forall k | 0 <= k < |unmet| ensures exists i :: 0 <= i < |working| && UnmetEntryOf(unmet[k], working[i], goalAllocated, target, days) {
        if k < |prev| {
          assert unmet[k] == prev[k];
          assert exists i :: 0 <= i < |p| && UnmetEntryOf(prev[k], p[i], goalAllocated, target, days);
          var i :| 0 <= i < |p| && UnmetEntryOf(prev[k], p[i], goalAllocated, target, days);
          assert p[i] == working[i];
        } else {
          assert UnmetEntryOf(unmet[k], working[|working| - 1], goalAllocated, target, days);
        }
      }
    }
  }

  /** Every goal more than half an hour short of its target over the days has an entry. */
  lemma {:induction false} UnmetEntriesComplete(working: seq<Goal>, goalAllocated: map<string, real>, target: map<string, real>, days: int)
    requires forall i :: 0 <= i < |working| ==> working[i].id in target
    ensures ShortGoalsListed(UnmetEntries(working, goalAllocated, target, days), working, goalAllocated, target, days)
    decreases |working|
  {
    if working != [] {
      var p := working[..|working| - 1];
      var unmet := UnmetEntries(working, goalAllocated, target, days);
      var prev := UnmetEntries(p, goalAllocated, target, days);
      UnmetEntriesComplete(p, goalAllocated, target, days);
      forall i | 0 <= i < |working| && AllocatedOf(goalAllocated, working[i].id) < HorizonTarget(target[working[i].id], days) - 0.5
        ensures exists k :: 0 <= k < |unmet| && UnmetEntryOf(unmet[k], working[i], goalAllocated, target, days)
      {
        if i < |p| {
          assert p[i] == working[i];
          var k :| 0 <= k < |prev| && UnmetEntryOf(prev[k], p[i], goalAllocated, target, days);
          assert unmet[k] == prev[k];
        } else {
          assert UnmetEntryOf(unmet[|prev|], working[i], goalAllocated, target, days);
        }
      }
    }
  }

  /** The unmet loop. */
  method ComputeUnmet(working: seq<Goal>, goalAllocated: map<string, real>, target: map<string, real>, days: int)
    returns (unmet: seq<UnmetGoal>)
    requires forall i :: 0 <= i < |working| ==> working[i].id in target
    ensures unmet == UnmetEntries(working, goalAllocated, target, days)
  {
    unmet := [];
    for i := 0 to |working|
      invariant unmet == UnmetEntries(working[..i], goalAllocated, target, days)
    {
      var goal := working[i];
      var alloc := if goal.id in goalAllocated then goalAllocated[goal.id] else 0.0;
      var t := target[goal.id] * (days as real / 7.0);
      if alloc < t - 0.5 {
        unmet := unmet + [UnmetGoal(goal.id, goal.name, t, alloc, t - alloc)];
      }
      assert working[..i + 1][..i] == working[..i] && working[..i + 1][i] == goal;
    }
    assert working[..|working|] == working;
  }

  // ---- The plan ----

  /** `_generate_coaching`, passed in: its thresholds are float arithmetic. */
  type Coach = (seq<Goal>, map<string, real>, seq<UnmetGoal>, int) -> seq<string>

  /** `start_date`, or midnight of `now` when none is given. */
  function PlanStart(startDate: Option<Instant>, now: Instant): Instant {
    if startDate.Some? then startDate.value else MidnightOf(now)
  }

  function IsFixed(b: PlannedBlock): bool {
    b.isFixed
  }

  function BlockStart(b: PlannedBlock): int {
    b.start
  }

  predicate SleepHoursValid(c: CapacityConstraints) {
    0 <= c.sleepStartHour <= 23 && 0 <= c.sleepEndHour <= 23
  }

  /** The free slots of day `d`: `compute_free_blocks` over the events overlapping it. */
  function FreeOnDay(start: Instant, events: seq<CalendarEvent>, c: CapacityConstraints, d: int): Option<seq<Span>> {
    FreeBlocks(DayStartOf(start, d), DayStartOf(start, d) + SecondsPerDay, DayEvents(events, DayStartOf(start, d)), c)
  }

  /** A goal block of one of the goals, non-empty, inside a free slot of day `d`. */
  ghost predicate PlacedOnDay(b: PlannedBlock, working: seq<Goal>, start: Instant, events: seq<CalendarEvent>,
                              c: CapacityConstraints, d: int) {
    FreeOnDay(start, events, c, d).Some? && PlacedFor(b, working, FreeOnDay(start, events, c, d).value)
  }

  /** Placed on one of the first `days` days. */
  ghost predicate GoalBlockPlaced(b: PlannedBlock, working: seq<Goal>, start: Instant, events: seq<CalendarEvent>,
                                  c: CapacityConstraints, days: int) {
    exists d :: 0 <= d < days && PlacedOnDay(b, working, start, events, c, d)
  }

  ghost predicate GoalBlocksPlaced(blocks: seq<PlannedBlock>, working: seq<Goal>, start: Instant, events: seq<CalendarEvent>,
                                   c: CapacityConstraints, days: int) {
    forall i :: 0 <= i < |blocks| && !blocks[i].isFixed ==> GoalBlockPlaced(blocks[i], working, start, events, c, days)
  }

  /** The capacity entry of day `d`: its date key, the hours free that day, an allocation
      within the daily limits, and the hours of slots left over, which together with the
      allocation take no more than the free hours. */
  ghost predicate DayEntry(entry: DayCapacity, start: Instant, events: seq<CalendarEvent>, c: CapacityConstraints,
                           dateKey: Instant -> string, d: int) {
    && entry.date == dateKey(start + d * SecondsPerDay)
    && FreeOnDay(start, events, c, d).Some?
    && entry.totalHours == TotalHours(FreeOnDay(start, events, c, d).value)
    && WithinDailyLimits(entry.allocatedHours, c)
    && 0.0 <= entry.spareHours && entry.allocatedHours + entry.spareHours <= entry.totalHours
    && SpareIn(entry.spareHours, FreeOnDay(start, events, c, d).value)
  }

  ghost predicate DayEntries(capacity: seq<DayCapacity>, start: Instant, events: seq<CalendarEvent>, c: CapacityConstraints,
                             dateKey: Instant -> string) {
    forall k :: 0 <= k < |capacity| ==> DayEntry(capacity[k], start, events, c, dateKey, k)
  }

  /** What the first `d` days of the loop have built: the fixed blocks of those days, goal
      blocks placed on them, and one capacity entry per day. */
  ghost predicate PlanSoFar(blocks: seq<PlannedBlock>, capacity: seq<DayCapacity>, working: seq<Goal>, start: Instant,
                            events: seq<CalendarEvent>, c: CapacityConstraints, dateKey: Instant -> string, d: int) {
    && 0 <= d
    && Lists.Filter(blocks, IsFixed) == FixedBlocksUpTo(start, events, d)
    && GoalBlocksPlaced(blocks, working, start, events, c, d)
    && |capacity| == d && DayEntries(capacity, start, events, c, dateKey)
  }

  /** Hours that some non-empty spans inside the free slots take up: those of the slots
      a day has left over. */
  ghost predicate SpareIn(hours: real, free: seq<Span>) {
    exists spare {:trigger TotalHours(spare)} :: AllNonEmpty(spare) && (forall k :: 0 <= k < |spare| ==> CoveredBy(spare[k], free)) && hours == TotalHours(spare)
  }

  /** Non-empty slots take up some time. */
  lemma SpareNotNegative(spare: seq<Span>)
    requires AllNonEmpty(spare)
    ensures 0.0 <= TotalHours(spare)
  {
    Lists.SumNonNegative(spare, Hours);
  }

  /** What the hours of the first `d` days account for: every goal block so far starts
      before day `d`, each day's allocated hours are those of the goal blocks starting on
      it, and each goal's allocation has grown by the hours of its blocks. */
  ghost predicate DaysAccounted(blocks: seq<PlannedBlock>, capacity: seq<DayCapacity>, goalAllocated: map<string, real>,
                                initial: map<string, real>, start: Instant, d: int) {
    && (forall i :: 0 <= i < |blocks| && !blocks[i].isFixed ==> blocks[i].start < DayStartOf(start, d))
    && (forall k {:trigger DayGoalHours(blocks, DayStartOf(start, k))} :: 0 <= k < |capacity| ==>
          capacity[k].allocatedHours == DayGoalHours(blocks, DayStartOf(start, k)))
    && (forall id {:trigger GoalHours(blocks, id)} :: id in initial ==> id in goalAllocated && goalAllocated[id] == initial[id] + GoalHours(blocks, id))
  }

  /** One more day of the loop, in what its hours account for: the day's goal blocks all
      start on it, so they add to its own entry and to no earlier day's. */
  lemma DaysAccountedStep(blocks: seq<PlannedBlock>, capacity: seq<DayCapacity>, goalAllocated: map<string, real>,
                          initial: map<string, real>, fixed: seq<PlannedBlock>, goalBlocks: seq<PlannedBlock>,
                          entry: DayCapacity, after: map<string, real>, working: seq<Goal>, start: Instant,
                          events: seq<CalendarEvent>, c: CapacityConstraints, d: int)
    requires DaysAccounted(blocks, capacity, goalAllocated, initial, start, d) && |capacity| == d
    requires fixed == FixedBlocksFor(DayEvents(events, DayStartOf(start, d)), DayStartOf(start, d))
    requires forall i :: 0 <= i < |goalBlocks| ==> PlacedOnDay(goalBlocks[i], working, start, events, c, d)
    requires entry.allocatedHours == BlockHours(goalBlocks)
    requires after.Keys == goalAllocated.Keys
    requires forall id {:trigger GoalHours(goalBlocks, id)} :: id in goalAllocated ==> after[id] == goalAllocated[id] + GoalHours(goalBlocks, id)
    ensures DaysAccounted(blocks + fixed + goalBlocks, capacity + [entry], after, initial, start, d + 1)
  {
    var ds := DayStartOf(start, d);
    FixedBlocksForEach(DayEvents(events, ds), ds);
    forall i | 0 <= i < |goalBlocks| ensures !goalBlocks[i].isFixed && ds <= goalBlocks[i].start < ds + SecondsPerDay {
      GoalBlockInDayAwake(goalBlocks[i], working, start, events, c, d);
    }
    DayBlocksStartBefore(blocks, fixed, goalBlocks, start, d);
    DayEntriesAccounted(blocks, capacity, fixed, goalBlocks, entry, start, d);
    GoalsAccounted(blocks, goalAllocated, initial, fixed, goalBlocks, after);
  }

  lemma DayBlocksStartBefore(blocks: seq<PlannedBlock>, fixed: seq<PlannedBlock>, goalBlocks: seq<PlannedBlock>, start: Instant, d: int)
    requires forall i :: 0 <= i < |blocks| && !blocks[i].isFixed ==> blocks[i].start < DayStartOf(start, d)
    requires forall i :: 0 <= i < |fixed| ==> fixed[i].isFixed
    requires forall i :: 0 <= i < |goalBlocks| ==> goalBlocks[i].start < DayStartOf(start, d) + SecondsPerDay
    ensures var all := blocks + fixed + goalBlocks;
      forall i :: 0 <= i < |all| && !all[i].isFixed ==> all[i].start < DayStartOf(start, d + 1)
  {
    var all := blocks + fixed + goalBlocks;
    DayStartsApart(start, d, d + 1);
    forall i | |blocks| <= i < |blocks| + |fixed| ensures all[i].isFixed {
      assert all[i] == fixed[i - |blocks|];
    }
    forall i | 0 <= i < |all| && !all[i].isFixed ensures all[i].start < DayStartOf(start, d + 1) {
      if i < |blocks| {
        assert all[i] == blocks[i];
      } else if i >= |blocks| + |fixed| {
        assert all[i] == goalBlocks[i - |blocks| - |fixed|];
      }
    }
  }

  /** The hours of the blocks of a day's run that `p` picks out, when it picks out no fixed
      block. */
  lemma DayRunHours(blocks: seq<PlannedBlock>, fixed: seq<PlannedBlock>, goalBlocks: seq<PlannedBlock>, p: PlannedBlock -> bool)
    requires forall i :: 0 <= i < |fixed| ==> !p(fixed[i])
    ensures BlockHours(Lists.Filter(blocks + fixed + goalBlocks, p))
         == BlockHours(Lists.Filter(blocks, p)) + BlockHours(Lists.Filter(goalBlocks, p))
  {
    FilteredHoursAppend(blocks + fixed, goalBlocks, p);
    FilteredHoursAppend(blocks, fixed, p);
    Lists.FilterNone(fixed, p);
  }

  lemma DayEntriesAccounted(blocks: seq<PlannedBlock>, capacity: seq<DayCapacity>, fixed: seq<PlannedBlock>,
                            goalBlocks: seq<PlannedBlock>, entry: DayCapacity, start: Instant, d: int)
    requires |capacity| == d
    requires forall i :: 0 <= i < |blocks| && !blocks[i].isFixed ==> blocks[i].start < DayStartOf(start, d)
    requires forall k :: 0 <= k < |capacity| ==> capacity[k].allocatedHours == DayGoalHours(blocks, DayStartOf(start, k))
    requires forall i :: 0 <= i < |fixed| ==> fixed[i].isFixed
    requires forall i :: 0 <= i < |goalBlocks| ==>
      !goalBlocks[i].isFixed && DayStartOf(start, d) <= goalBlocks[i].start < DayStartOf(start, d) + SecondsPerDay
    requires entry.allocatedHours == BlockHours(goalBlocks)
    ensures var cap, all := capacity + [entry], blocks + fixed + goalBlocks;
      forall k :: 0 <= k < |cap| ==> cap[k].allocatedHours == DayGoalHours(all, DayStartOf(start, k))
  {
    var cap, all := capacity + [entry], blocks + fixed + goalBlocks;
    forall k | 0 <= k < |cap| ensures cap[k].allocatedHours == DayGoalHours(all, DayStartOf(start, k)) {
      var p := OnDayOf(DayStartOf(start, k));
      DayRunHours(blocks, fixed, goalBlocks, p);
      if k < |capacity| {
        assert cap[k] == capacity[k];
        DayStartsApart(start, k, d);
        Lists.FilterNone(goalBlocks, p);
      } else {
        Lists.FilterNone(blocks, p);
        Lists.FilterAll(goalBlocks, p);
      }
    }
  }

  lemma GoalsAccounted(blocks: seq<PlannedBlock>, goalAllocated: map<string, real>, initial: map<string, real>,
                       fixed: seq<PlannedBlock>, goalBlocks: seq<PlannedBlock>, after: map<string, real>)
    requires forall id {:trigger GoalHours(blocks, id)} :: id in initial ==> id in goalAllocated && goalAllocated[id] == initial[id] + GoalHours(blocks, id)
    requires forall i :: 0 <= i < |fixed| ==> fixed[i].isFixed
    requires after.Keys == goalAllocated.Keys
    requires forall id {:trigger GoalHours(goalBlocks, id)} :: id in goalAllocated ==> after[id] == goalAllocated[id] + GoalHours(goalBlocks, id)
    ensures var all := blocks + fixed + goalBlocks;
      forall id {:trigger GoalHours(all, id)} :: id in initial ==> id in after && after[id] == initial[id] + GoalHours(all, id)
  {
    var all := blocks + fixed + goalBlocks;
    forall id | id in initial ensures id in after && after[id] == initial[id] + GoalHours(all, id) {
      DayRunHours(blocks, fixed, goalBlocks, OfGoal(id));
      var before, added := GoalHours(blocks, id), GoalHours(goalBlocks, id);
    }
  }

  /** Free time exists on a day exactly when the sleep hours are valid. */
  lemma FreeOnDayDefined(start: Instant, events: seq<CalendarEvent>, c: CapacityConstraints, d: int)
    ensures FreeOnDay(start, events, c, d).Some? <==> SleepHoursValid(c)
  {
    var ds := DayStartOf(start, d);
    FreeBlocksDefined(ds, ds + SecondsPerDay, DayEvents(events, ds), c);
  }

  lemma FreeBlocksDefined(dayStart: Instant, dayEnd: Instant, events: seq<CalendarEvent>, c: CapacityConstraints)
    ensures FreeBlocks(dayStart, dayEnd, events, c).Some? <==> SleepHoursValid(c)
  {
    var _ := SleepSpans(dayStart, dayEnd, c);
  }

  /** Appending a day's fixed blocks and goal blocks keeps every goal block placed. */
  lemma DayBlocksPlaced(blocks: seq<PlannedBlock>, fixed: seq<PlannedBlock>, goalBlocks: seq<PlannedBlock>, working: seq<Goal>,
                        start: Instant, events: seq<CalendarEvent>, c: CapacityConstraints, d: int)
    requires 0 <= d
    requires GoalBlocksPlaced(blocks, working, start, events, c, d)
    requires forall i :: 0 <= i < |fixed| ==> fixed[i].isFixed
    requires FreeOnDay(start, events, c, d).Some?
    requires forall i :: 0 <= i < |goalBlocks| ==> PlacedFor(goalBlocks[i], working, FreeOnDay(start, events, c, d).value)
    ensures GoalBlocksPlaced(blocks + fixed + goalBlocks, working, start, events, c, d + 1)
  {
    var all := blocks + fixed + goalBlocks;
    forall i | 0 <= i < |all| && !all[i].isFixed ensures GoalBlockPlaced(all[i], working, start, events, c, d + 1) {
      if i < |blocks| {
        assert all[i] == blocks[i];
        var e :| 0 <= e < d && PlacedOnDay(blocks[i], working, start, events, c, e);
      } else if i >= |blocks| + |fixed| {
        assert all[i] == goalBlocks[i - |blocks| - |fixed|];
        assert PlacedOnDay(all[i], working, start, events, c, d);
      }
    }
  }

  /** Appending a day's fixed blocks and goal blocks extends the fixed blocks by that day's. */
  lemma DayFixedBlocks(blocks: seq<PlannedBlock>, goalBlocks: seq<PlannedBlock>, start: Instant, events: seq<CalendarEvent>, d: int)
    requires 0 <= d
    requires Lists.Filter(blocks, IsFixed) == FixedBlocksUpTo(start, events, d)
    requires forall i :: 0 <= i < |goalBlocks| ==> !goalBlocks[i].isFixed
    ensures Lists.Filter(blocks + FixedBlocksFor(DayEvents(events, DayStartOf(start, d)), DayStartOf(start, d)) + goalBlocks, IsFixed)
         == FixedBlocksUpTo(start, events, d + 1)
  {
    var fixed := FixedBlocksFor(DayEvents(events, DayStartOf(start, d)), DayStartOf(start, d));
    FixedBlocksForEach(DayEvents(events, DayStartOf(start, d)), DayStartOf(start, d));
    Lists.FilterAppend(blocks + fixed, goalBlocks, IsFixed);
    Lists.FilterAppend(blocks, fixed, IsFixed);
    Lists.FilterAll(fixed, IsFixed);
    Lists.FilterNone(goalBlocks, IsFixed);
  }

  /** One more day of the loop: its fixed blocks, its goal blocks and its capacity entry. */
  lemma PlanDayStep(blocks: seq<PlannedBlock>, capacity: seq<DayCapacity>, fixed: seq<PlannedBlock>, goalBlocks: seq<PlannedBlock>,
                    entry: DayCapacity, working: seq<Goal>, start: Instant, events: seq<CalendarEvent>, c: CapacityConstraints,
                    dateKey: Instant -> string, d: int)
    requires PlanSoFar(blocks, capacity, working, start, events, c, dateKey, d)
    requires fixed == FixedBlocksFor(DayEvents(events, DayStartOf(start, d)), DayStartOf(start, d))
    requires FreeOnDay(start, events, c, d).Some?
    requires forall i :: 0 <= i < |goalBlocks| ==> PlacedFor(goalBlocks[i], working, FreeOnDay(start, events, c, d).value)
    requires DayEntry(entry, start, events, c, dateKey, d)
    ensures PlanSoFar(blocks + fixed + goalBlocks, capacity + [entry], working, start, events, c, dateKey, d + 1)
  {
    FixedBlocksForEach(DayEvents(events, DayStartOf(start, d)), DayStartOf(start, d));
    DayFixedBlocks(blocks, goalBlocks, start, events, d);
    DayBlocksPlaced(blocks, fixed, goalBlocks, working, start, events, c, d);
    var cap := capacity + [entry];
    forall k | 0 <= k < |cap| ensures DayEntry(cap[k], start, events, c, dateKey, k) {
      if k < |capacity| {
        assert cap[k] == capacity[k];
      } else {
        assert cap[k] == entry;
      }
    }
  }

  /** One more day of the loop, from what the goal loop of the day hands back: the plan
      so far and what its hours account for both extend by the day. */
  lemma PlanDayAdds(blocks: seq<PlannedBlock>, capacity: seq<DayCapacity>, goalAllocated: map<string, real>,
                    initial: map<string, real>, fixed: seq<PlannedBlock>, slots: seq<Span>, goalBlocks: seq<PlannedBlock>,
                    spare: seq<Span>, after: map<string, real>, dayAllocated: real, entry: DayCapacity,
                    working: seq<Goal>, start: Instant, events: seq<CalendarEvent>, c: CapacityConstraints,
                    dateKey: Instant -> string, d: int)
    requires PlanSoFar(blocks, capacity, working, start, events, c, dateKey, d)
    requires DaysAccounted(blocks, capacity, goalAllocated, initial, start, d)
    requires fixed == FixedBlocksFor(DayEvents(events, DayStartOf(start, d)), DayStartOf(start, d))
    requires Some(slots) == FreeBlocks(DayStartOf(start, d), DayStartOf(start, d) + SecondsPerDay, DayEvents(events, DayStartOf(start, d)), c)
    requires && (forall i :: 0 <= i < |goalBlocks| ==> PlacedFor(goalBlocks[i], working, slots))
      && AllNonEmpty(spare) && (forall i :: 0 <= i < |spare| ==> CoveredBy(spare[i], slots))
      && TotalHours(spare) + dayAllocated <= TotalHours(slots)
      && entry == DayCapacity(dateKey(start + d * SecondsPerDay), TotalHours(slots), dayAllocated, TotalHours(spare))
    requires WithinDailyLimits(dayAllocated, c) && dayAllocated == BlockHours(goalBlocks)
    requires after.Keys == goalAllocated.Keys
    requires forall id {:trigger GoalHours(goalBlocks, id)} :: id in goalAllocated ==> after[id] == goalAllocated[id] + GoalHours(goalBlocks, id)
    ensures PlanSoFar(blocks + fixed + goalBlocks, capacity + [entry], working, start, events, c, dateKey, d + 1)
    ensures DaysAccounted(blocks + fixed + goalBlocks, capacity + [entry], after, initial, start, d + 1)
  {
    assert FreeOnDay(start, events, c, d) == Some(slots);
    SpareNotNegative(spare);
    assert SpareIn(entry.spareHours, slots);
    assert DayEntry(entry, start, events, c, dateKey, d);
    PlanDayStep(blocks, capacity, fixed, goalBlocks, entry, working, start, events, c, dateKey, d);
    DaysAccountedStep(blocks, capacity, goalAllocated, initial, fixed, goalBlocks, entry, after, working, start, events, c, d);
  }

  /** Sorting the blocks by start keeps the fixed ones up to order and every goal block placed. */
  lemma SortedBlocks(blocks: seq<PlannedBlock>, working: seq<Goal>, start: Instant, events: seq<CalendarEvent>,
                     c: CapacityConstraints, days: int)
    requires GoalBlocksPlaced(blocks, working, start, events, c, days)
    ensures Lists.SortedBy(Lists.SortBy(blocks, BlockStart), BlockStart)
    ensures multiset(Lists.Filter(Lists.SortBy(blocks, BlockStart), IsFixed)) == multiset(Lists.Filter(blocks, IsFixed))
    ensures GoalBlocksPlaced(Lists.SortBy(blocks, BlockStart), working, start, events, c, days)
  {
    var sorted := Lists.SortBy(blocks, BlockStart);
    Lists.SortBySorts(blocks, BlockStart);
    Lists.FilterPermutation(sorted, blocks, IsFixed);
    forall i | 0 <= i < |sorted| && !sorted[i].isFixed ensures GoalBlockPlaced(sorted[i], working, start, events, c, days) {
      assert sorted[i] in multiset(blocks);
      var j :| 0 <= j < |blocks| && blocks[j] == sorted[i];
    }
  }

  /** Every event overlapping a day is among the day's events. */
  lemma InDayEvents(events: seq<CalendarEvent>, ds: Instant)
    ensures forall e :: e in events && OverlapsDay(e, ds) ==> e in DayEvents(events, ds)
  {
    Lists.FilterKeeps(events, OverlapsDayOf(ds));
    forall e | e in events && OverlapsDay(e, ds) ensures e in DayEvents(events, ds) {
      assert OverlapsDayOf(ds)(e);
    }
  }

  /** A goal block placed on a day lies inside that day and clear of the sleep hours. */
  lemma GoalBlockInDayAwake(b: PlannedBlock, working: seq<Goal>, start: Instant, events: seq<CalendarEvent>,
                            c: CapacityConstraints, d: int)
    requires PlacedOnDay(b, working, start, events, c, d)
    ensures DayStartOf(start, d) <= b.start < b.end <= DayStartOf(start, d) + SecondsPerDay
    ensures SleepHoursValid(c)
    ensures forall s :: s in SleepSpans(DayStartOf(start, d), DayStartOf(start, d) + SecondsPerDay, c).value ==> Disjoint(SpanOf(b), s)
  {
    var ds := DayStartOf(start, d);
    MidnightIsMidnight(start + d * SecondsPerDay);
    FreeOnDayDefined(start, events, c, d);
    CoveredSpanInDayAwake(SpanOf(b), ds, ds + SecondsPerDay, DayEvents(events, ds), c);
  }

  /** A goal block placed on a day is clear of every timed event overlapping that day. */
  lemma GoalBlockClearOfEvents(b: PlannedBlock, working: seq<Goal>, start: Instant, events: seq<CalendarEvent>,
                               c: CapacityConstraints, d: int)
    requires PlacedOnDay(b, working, start, events, c, d)
    ensures var ds := DayStartOf(start, d);
      forall e :: e in events && !e.isAllDay && Max(e.start, ds) < Min(e.end, ds + SecondsPerDay) ==>
        Disjoint(SpanOf(b), Span(Max(e.start, ds), Min(e.end, ds + SecondsPerDay)))
  {
    var ds := DayStartOf(start, d);
    MidnightIsMidnight(start + d * SecondsPerDay);
    CoveredSpanClearOfEvents(SpanOf(b), ds, ds + SecondsPerDay, DayEvents(events, ds), c);
    InDayEvents(events, ds);
  }

  /** A day with a goal block placed on it has no all-day event. */
  lemma GoalBlockNoAllDay(b: PlannedBlock, working: seq<Goal>, start: Instant, events: seq<CalendarEvent>,
                          c: CapacityConstraints, d: int)
    requires PlacedOnDay(b, working, start, events, c, d)
    ensures forall e :: e in events && e.isAllDay ==> !OverlapsDay(e, DayStartOf(start, d))
  {
    var ds := DayStartOf(start, d);
    var de := ds + SecondsPerDay;
    var dayEvents := DayEvents(events, ds);
    assert FreeOnDay(start, events, c, d) == FreeBlocks(ds, de, dayEvents, c);
    MidnightIsMidnight(start + d * SecondsPerDay);
    var slots := FreeBlocks(ds, de, dayEvents, c).value;
    var k :| 0 <= k < |slots| && Within(SpanOf(b), slots[k]);
    FreeTimeMeansNoAllDay(ds, de, dayEvents, c);
    InDayEvents(events, ds);
  }

  /** Allocated hours per goal id: one per target, never negative, and never above a
      non-negative target. */
  ghost predicate CappedAllocations(goalAllocated: map<string, real>, target: map<string, real>) {
    && goalAllocated.Keys == target.Keys
    && forall id :: id in goalAllocated ==> 0.0 <= goalAllocated[id] && (0.0 <= target[id] ==> goalAllocated[id] <= target[id])
  }

  /** The unmet entries given the final allocations: exactly the goals that are short. */
  ghost predicate UnmetOf(unmet: seq<UnmetGoal>, working: seq<Goal>, goalAllocated: map<string, real>, target: map<string, real>, days: int) {
    EntriesOfGoals(unmet, working, goalAllocated, target, days) && ShortGoalsListed(unmet, working, goalAllocated, target, days)
  }

  /** One day of `generate_plan`'s loop: the day's fixed blocks, its free slots (failing
      where the free-block computation raises), the goal blocks placed in them and the
      day's capacity entry, added to what the earlier days built. */
  method PlanDay(working: seq<Goal>, target: map<string, real>, start: Instant, fixedEvents: seq<CalendarEvent>,
                 c: CapacityConstraints, dateKey: Instant -> string, d: int,
                 blocks: seq<PlannedBlock>, capacity: seq<DayCapacity>, goalAllocated: map<string, real>,
                 ghost initial: map<string, real>)
    returns (ok: bool, blocks': seq<PlannedBlock>, capacity': seq<DayCapacity>, after: map<string, real>)
    requires CappedAllocations(goalAllocated, target) && forall i :: 0 <= i < |working| ==> working[i].id in target
    requires PlanSoFar(blocks, capacity, working, start, fixedEvents, c, dateKey, d)
    requires DaysAccounted(blocks, capacity, goalAllocated, initial, start, d)
    ensures ok <==> SleepHoursValid(c)
    ensures ok ==> CappedAllocations(after, target)
    ensures ok ==> PlanSoFar(blocks', capacity', working, start, fixedEvents, c, dateKey, d + 1)
    ensures ok ==> DaysAccounted(blocks', capacity', after, initial, start, d + 1)
  {
    var dayDt := start + d * SecondsPerDay;
    var dayStart := DayStartOf(start, d);
    var dayEnd := dayStart + SecondsPerDay;
    var dayEvents := DayEvents(fixedEvents, dayStart);
    var fixed := FixedBlocksOfDay(dayEvents, dayStart);
    var free := ComputeFreeBlocks(dayStart, dayEnd, dayEvents, c);
    FreeBlocksDefined(dayStart, dayEnd, dayEvents, c);
    if free.None? {
      return false, blocks, capacity, goalAllocated;
    }
    FreeSlotsLongAndAfterStart(dayStart, dayEnd, dayEvents, c);
    var goalBlocks, spare, dayAllocated;
    goalBlocks, spare, after, dayAllocated := AllocateDay(working, free.value, c, goalAllocated, target);
    var entry := DayCapacity(dateKey(dayDt), TotalHours(free.value), dayAllocated, TotalHours(spare));
    PlanDayAdds(blocks, capacity, goalAllocated, initial, fixed, free.value, goalBlocks, spare, after, dayAllocated, entry,
                working, start, fixedEvents, c, dateKey, d);
    return true, blocks + fixed + goalBlocks, capacity + [entry], after;
  }

  /** The day loop of `generate_plan`, carrying the hours allocated per goal from day to
      day. Fails where the free-block computation raises. */
  method PlanDays(working: seq<Goal>, target: map<string, real>, initial: map<string, real>, start: Instant,
                  fixedEvents: seq<CalendarEvent>, c: CapacityConstraints, days: int, dateKey: Instant -> string)
    returns (ok: bool, blocks: seq<PlannedBlock>, capacity: seq<DayCapacity>, goalAllocated: map<string, real>)
    requires CappedAllocations(initial, target) && forall i :: 0 <= i < |working| ==> working[i].id in target
    ensures ok <==> !(days > 0 && !SleepHoursValid(c))
    ensures ok ==> CappedAllocations(goalAllocated, target)
    ensures ok ==> PlanSoFar(blocks, capacity, working, start, fixedEvents, c, dateKey, if days > 0 then days else 0)
    ensures ok ==> DaysAccounted(blocks, capacity, goalAllocated, initial, start, if days > 0 then days else 0)
  {
    blocks, capacity, goalAllocated := [], [], initial;
    var n := if days > 0 then days else 0;
    var d := 0;
    while d < n
      invariant 0 <= d <= n
      invariant d == 0 || SleepHoursValid(c)
      invariant CappedAllocations(goalAllocated, target)
      invariant PlanSoFar(blocks, capacity, working, start, fixedEvents, c, dateKey, d)
      invariant DaysAccounted(blocks, capacity, goalAllocated, initial, start, d)
    {
      var dayOk;
      dayOk, blocks, capacity, goalAllocated := PlanDay(working, target, start, fixedEvents, c, dateKey, d, blocks, capacity, goalAllocated, initial);
      if !dayOk {
        return false, blocks, capacity, goalAllocated;
      }
      d := d + 1;
    }
    ok := true;
  }

  /** The weekly target bounds a goal's hours over the whole horizon, while the unmet
      check scales the target by the number of days: on a horizon of a week or more, a
      goal whose target grows by more than half an hour over its weekly value is always
      listed as unmet. */
  lemma WeeklyTargetCapsHorizon(unmet: seq<UnmetGoal>, working: seq<Goal>, goalAllocated: map<string, real>,
                                target: map<string, real>, days: int, i: int)
    requires CappedAllocations(goalAllocated, target) && ShortGoalsListed(unmet, working, goalAllocated, target, days)
    requires 0 <= i < |working| && working[i].id in target && days >= 7
    requires target[working[i].id] * (days as real / 7.0 - 1.0) > 0.5
    ensures exists k :: 0 <= k < |unmet| && unmet[k].goalId == working[i].id
  {
    var w, f := target[working[i].id], days as real / 7.0;
    assert f >= 1.0;
    assert w > 0.0;
    assert HorizonTarget(w, days) == w + w * (f - 1.0);
    assert AllocatedOf(goalAllocated, working[i].id) <= w;
  }

  /** What `generate_plan` promises of its plan: blocks sorted by start, one fixed block
      per event and day it overlaps, every goal block inside a free slot of its day, one
      capacity entry per day whose allocated hours are those of the goal blocks starting
      that day, and, with each goal's hours those of its blocks, none over its target and
      an unmet entry for exactly the goals short of it. */
  ghost predicate PlanFor(plan: PlanResponse, goals: seq<Goal>, fixedEvents: seq<CalendarEvent>, c: CapacityConstraints,
                          startDate: Option<Instant>, days: int, simulate: Option<GoalCreate>, now: Instant,
                          dateKey: Instant -> string)
  {
    var start, working := PlanStart(startDate, now), WorkingGoals(goals, simulate, now);
    && Lists.SortedBy(plan.blocks, BlockStart)
    && multiset(Lists.Filter(plan.blocks, IsFixed)) == multiset(FixedBlocksUpTo(start, fixedEvents, days))
    && GoalBlocksPlaced(plan.blocks, working, start, fixedEvents, c, days)
    && |plan.capacityByDay| == (if days > 0 then days else 0)
    && DayEntries(plan.capacityByDay, start, fixedEvents, c, dateKey)
    && (forall k :: 0 <= k < |plan.capacityByDay| ==>
          plan.capacityByDay[k].allocatedHours == DayGoalHours(plan.blocks, DayStartOf(start, k)))
    && CappedAllocations(AllocatedIn(plan.blocks, Targets(working)), Targets(working))
    && UnmetOf(plan.unmet, working, AllocatedIn(plan.blocks, Targets(working)), Targets(working), days)
  }

  /** Sorting the blocks leaves the hours of each goal and of each day as they were: the
      running totals of the loop are the hours of the sorted plan's blocks. */
  lemma AccountsSorted(blocks: seq<PlannedBlock>, capacity: seq<DayCapacity>, goalAllocated: map<string, real>,
                       working: seq<Goal>, target: map<string, real>, start: Instant, days: int)
    requires DaysAccounted(blocks, capacity, goalAllocated, NoAllocations(working), start, days)
    requires goalAllocated.Keys == target.Keys == NoAllocations(working).Keys
    ensures goalAllocated == AllocatedIn(Lists.SortBy(blocks, BlockStart), target)
    ensures forall k :: 0 <= k < |capacity| ==>
      capacity[k].allocatedHours == DayGoalHours(Lists.SortBy(blocks, BlockStart), DayStartOf(start, k))
  {
    var sorted := Lists.SortBy(blocks, BlockStart);
    Lists.SortBySorts(blocks, BlockStart);
    forall id | id in target ensures goalAllocated[id] == GoalHours(sorted, id) {
      FilteredHoursPermutation(sorted, blocks, OfGoal(id));
      assert goalAllocated[id] == NoAllocations(working)[id] + GoalHours(blocks, id);
    }
    forall k | 0 <= k < |capacity| ensures capacity[k].allocatedHours == DayGoalHours(sorted, DayStartOf(start, k)) {
      FilteredHoursPermutation(sorted, blocks, OnDayOf(DayStartOf(start, k)));
      assert capacity[k].allocatedHours == DayGoalHours(blocks, DayStartOf(start, k));
    }
  }

  /** `generate_plan`. Returns None where it raises: when there is a day to plan and a
      sleep hour is outside 0..23. Otherwise the blocks are sorted by start; the fixed
      blocks among them are those of the event/day overlaps, and every other block is a
      non-empty block of a working goal inside a free slot of one of the days; there is
      one capacity entry per day, whose allocated hours are those of the goal blocks
      starting that day and whose spare hours, those of the slots the day has left, take
      with them no more than its free hours; and, with each goal's hours those of its
      blocks, no goal passes its target and the unmet entries are exactly the goals more
      than half an hour short of their target over the days. */
  method GeneratePlan(goals: seq<Goal>, fixedEvents: seq<CalendarEvent>, c: CapacityConstraints,
                      startDate: Option<Instant>, days: int, simulate: Option<GoalCreate>, now: Instant,
                      dateKey: Instant -> string, coach: Coach)
    returns (r: Option<PlanResponse>)
    ensures r.None? <==> days > 0 && !SleepHoursValid(c)
    ensures r.Some? ==> PlanFor(r.value, goals, fixedEvents, c, startDate, days, simulate, now, dateKey)
  {
    var start := PlanStart(startDate, now);
    var working := WorkingGoals(goals, simulate, now);
    var target := Targets(working);
    TargetsOf(working);
    var ok, allBlocks, capacity, goalAllocated := PlanDays(working, target, NoAllocations(working), start, fixedEvents, c, days, dateKey);
    if !ok {
      return None;
    }
    var unmet := ComputeUnmet(working, goalAllocated, target, days);
    UnmetEntriesSound(working, goalAllocated, target, days);
    UnmetEntriesComplete(working, goalAllocated, target, days);
    assert CappedAllocations(goalAllocated, target) && UnmetOf(unmet, working, goalAllocated, target, days);
    var coaching := coach(working, goalAllocated, unmet, days);
    SortedBlocks(allBlocks, working, start, fixedEvents, c, days);
    AccountsSorted(allBlocks, capacity, goalAllocated, working, target, start, if days > 0 then days else 0);
    r := Some(PlanResponse(Lists.SortBy(allBlocks, BlockStart), unmet, capacity, coaching));
  }
}
