/** The single-slot on-disk plan cache (PlanCache.swift): `last_plan.json` in the
    caches directory, written by `save`, read by `load`, deleted by `clear`. */
module Cache {
  import opened Wrappers
  import opened Models

  /** A plan as the `.iso8601` date strategy writes it: every instant is cut down to the
      whole second that contains it. */
  function WholeSeconds(p: PlanResponse): (q: PlanResponse)
    ensures |q.blocks| == |p.blocks|
    ensures forall i :: 0 <= i < |p.blocks| ==>
      q.blocks[i] == p.blocks[i].(start := FloorSecond(p.blocks[i].start), end := FloorSecond(p.blocks[i].end))
    ensures q.unmet == p.unmet && q.capacityByDay == p.capacityByDay && q.coachingMessages == p.coachingMessages
  {
    p.(blocks := seq(|p.blocks|, i requires 0 <= i < |p.blocks| =>
      p.blocks[i].(start := FloorSecond(p.blocks[i].start), end := FloorSecond(p.blocks[i].end))))
  }

  /** The start of the second holding `t` (earlier for instants before 1970 too). */
  function FloorSecond(t: Timestamp): (s: Timestamp)
    ensures s <= t < s + MsPerSecond
    ensures s % MsPerSecond == 0
  {
    t - t % MsPerSecond
  }

  predicate OnWholeSeconds(p: PlanResponse) {
    forall i :: 0 <= i < |p.blocks| ==>
      p.blocks[i].start % MsPerSecond == 0 && p.blocks[i].end % MsPerSecond == 0
  }

  /** A plan survives the encoder unchanged exactly when all of its instants are whole seconds. */
  lemma WholeSecondsExact(p: PlanResponse)
    ensures WholeSeconds(p) == p <==> OnWholeSeconds(p)
  {
    if OnWholeSeconds(p) {
      assert WholeSeconds(p).blocks == p.blocks;
    } else {
      var i :| 0 <= i < |p.blocks| && !(p.blocks[i].start % MsPerSecond == 0 && p.blocks[i].end % MsPerSecond == 0);
      assert WholeSeconds(p).blocks[i] != p.blocks[i];
    }
  }

  /** Encoding an already-saved plan again changes nothing. */
  lemma WholeSecondsIdempotent(p: PlanResponse)
    ensures OnWholeSeconds(WholeSeconds(p))
    ensures WholeSeconds(WholeSeconds(p)) == WholeSeconds(p)
  {
    WholeSecondsExact(WholeSeconds(p));
  }

  /** What the file holds: the bytes of an encoded plan, or bytes that do not decode
      (a file damaged or left behind by another build). */
  datatype StoredFile = Encoded(plan: PlanResponse) | Unreadable

  /** How `save`'s encode-then-write ends. `Data.write(to:)` without the atomic option
      writes in place, so a write can fail before touching the file or after cutting it
      short. Every failure is swallowed by `try?`. */
  datatype WriteOutcome = Written | EncodeFailed | WriteFailed | WriteTruncated

  /** The slot after a save that ends with `outcome`. */
  function AfterSave(before: Option<StoredFile>, plan: PlanResponse, outcome: WriteOutcome): (after: Option<StoredFile>)
    ensures outcome == Written ==> after == Some(Encoded(WholeSeconds(plan)))
    ensures outcome == WriteTruncated ==> after == Some(Unreadable)
    ensures outcome == EncodeFailed || outcome == WriteFailed ==> after == before
  {
    match outcome
    case Written => Some(Encoded(WholeSeconds(plan)))
    case WriteTruncated => Some(Unreadable)
    case _ => before
  }

  class PlanCache {
    /** The `last_plan.json` slot: absent, or present with some contents. */
    var file: Option<StoredFile>

    /** A cache over whatever the caches directory already holds. */
    constructor(onDisk: Option<StoredFile>)
      ensures file == onDisk
    {
      file := onDisk;
    }

    /** `save`: a successful write replaces the slot with the whole-second encoding of
        `plan`; a failed encode, or a write that fails before touching the file, leaves the
        previous snapshot; a write cut short leaves a file that does not decode. */
    method Save(plan: PlanResponse, outcome: WriteOutcome)
      modifies this
      ensures file == AfterSave(old(file), plan, outcome)
      ensures outcome == Written ==> file == Some(Encoded(WholeSeconds(plan)))
      ensures outcome == WriteTruncated ==> file == Some(Unreadable)
      ensures outcome == EncodeFailed || outcome == WriteFailed ==> file == old(file)
    {
      if outcome == EncodeFailed {
        return;
      }
      if outcome == Written {
        file := Some(Encoded(WholeSeconds(plan)));
      } else if outcome == WriteTruncated {
        file := Some(Unreadable);
      }
    }

    /** `load`: the decoded snapshot; a missing file and one that does not decode both
        give nil. */
    function Load(): (r: Option<PlanResponse>)
      reads this
      ensures r.Some? <==> file.Some? && file.value.Encoded?
      ensures r.Some? ==> file == Some(Encoded(r.value))
    {
      match file
      case None => None
      case Some(Unreadable) => None
      case Some(Encoded(p)) => Some(p)
    }

    /** `clear`: removes the file; removing a missing file is a swallowed error. */
    method Clear()
      modifies this
      ensures file == None
    {
      file := None;
    }
  }

  /** Saving into any cache and loading back gives the plan cut to whole seconds, and
      exactly the plan when its instants are whole seconds. */
  method SaveThenLoad(onDisk: Option<StoredFile>, plan: PlanResponse) returns (loaded: Option<PlanResponse>)
    ensures loaded == Some(WholeSeconds(plan))
    ensures OnWholeSeconds(plan) ==> loaded == Some(plan)
  {
    var cache := new PlanCache(onDisk);
    cache.Save(plan, Written);
    loaded := cache.Load();
    WholeSecondsExact(plan);
  }

  /** Of two successful saves only the later plan can be loaded. */
  method LatestSaveWins(onDisk: Option<StoredFile>, first: PlanResponse, second: PlanResponse)
    returns (loaded: Option<PlanResponse>)
    ensures loaded == Some(WholeSeconds(second))
  {
    var cache := new PlanCache(onDisk);
    cache.Save(first, Written);
    cache.Save(second, Written);
    loaded := cache.Load();
  }

  /** A save whose encode fails, or whose write fails before touching the file, leaves
      what was loadable before loadable. */
  method FailedSaveKeepsSnapshot(onDisk: Option<StoredFile>, plan: PlanResponse, outcome: WriteOutcome)
    returns (before: Option<PlanResponse>, after: Option<PlanResponse>)
    requires outcome == EncodeFailed || outcome == WriteFailed
    ensures after == before
  {
    var cache := new PlanCache(onDisk);
    before := cache.Load();
    cache.Save(plan, outcome);
    after := cache.Load();
  }

  /** A write cut short loses the previous snapshot too: nothing loads afterwards. */
  method TruncatedSaveLosesSnapshot(onDisk: Option<StoredFile>, plan: PlanResponse)
    returns (before: Option<PlanResponse>, after: Option<PlanResponse>)
    ensures onDisk.Some? && onDisk.value.Encoded? ==> before == Some(onDisk.value.plan)
    ensures after == None
  {
    var cache := new PlanCache(onDisk);
    before := cache.Load();
    cache.Save(plan, WriteTruncated);
    after := cache.Load();
  }

  /** After `clear`, once or twice, nothing loads. */
  method ClearThenLoad(onDisk: Option<StoredFile>, twice: bool) returns (loaded: Option<PlanResponse>)
    ensures loaded == None
  {
    var cache := new PlanCache(onDisk);
    cache.Clear();
    if twice {
      cache.Clear();
    }
    loaded := cache.Load();
  }
}
