/** Half-open spans of time and the two sweeps `compute_free_blocks` runs over them
    (app/services/scheduler.py): merging spans sorted by start, and collecting the gaps a
    cursor leaves between merged spans up to an end. */
module Intervals {
  import Lists

  /** A span [start, end) of instants; the blocked tuples and `FreeSlot` alike. */
  datatype Span = Span(start: int, end: int)

  function Max(a: int, b: int): int {
    if a >= b then a else b
  }

  function Min(a: int, b: int): int {
    if a <= b then a else b
  }

  function StartOf(s: Span): int {
    s.start
  }

  /** `a` ends before `b` starts. */
  predicate Before(a: Span, b: Span) {
    a.end <= b.start
  }

  /** Two spans share no instant (read for spans that are not empty). */
  predicate Disjoint(a: Span, b: Span) {
    a.end <= b.start || b.end <= a.start
  }

  predicate Within(inner: Span, outer: Span) {
    outer.start <= inner.start && inner.end <= outer.end
  }

  ghost predicate AllProper(s: seq<Span>) {
    forall i :: 0 <= i < |s| ==> s[i].start <= s[i].end
  }

  ghost predicate StartsSorted(s: seq<Span>) {
    forall i, j :: 0 <= i < j < |s| ==> s[i].start <= s[j].start
  }

  ghost predicate StartsAtMost(s: seq<Span>, bound: int) {
    forall i :: 0 <= i < |s| ==> s[i].start <= bound
  }

  /** Proper spans, each ending strictly before the next one starts. */
  ghost predicate Separated(s: seq<Span>) {
    AllProper(s) && forall i, j :: 0 <= i < j < |s| ==> s[i].end < s[j].start
  }

  /** The span holds the instant `t`. */
  predicate Holds(s: Span, t: int) {
    s.start <= t < s.end
  }

  ghost predicate CoveredBy(b: Span, ms: seq<Span>) {
    exists k :: 0 <= k < |ms| && Within(b, ms[k])
  }

  /** Covering passes along: what lies inside one of `a`, each of which lies inside one of
      `b`, lies inside one of `b`. */
  lemma CoveredTransitive(x: Span, a: seq<Span>, b: seq<Span>)
    requires CoveredBy(x, a)
    requires forall k :: 0 <= k < |a| ==> CoveredBy(a[k], b)
    ensures CoveredBy(x, b)
  {
    var k :| 0 <= k < |a| && Within(x, a[k]);
    var j :| 0 <= j < |b| && Within(a[k], b[j]);
    assert Within(x, b[j]);
  }

  // ---- Merging ----

  /** One iteration of the merge loop: a span starting no later than the last merged
      span's end extends that span in place, any other span is appended. */
  function MergeStep(merged: seq<Span>, s: Span): (r: seq<Span>) {
    if merged != [] && s.start <= merged[|merged| - 1].end
    then merged[|merged| - 1 := Span(merged[|merged| - 1].start, Max(merged[|merged| - 1].end, s.end))]
    else merged + [s]
  }

  /** The merge loop run over all of `s`, in order. */
  function Merge(s: seq<Span>): (r: seq<Span>)
    decreases |s|
  {
    if s == [] then [] else MergeStep(Merge(s[..|s| - 1]), s[|s| - 1])
  }

  /** Merged spans start where some input span starts, so no later than a bound on those. */
  lemma {:induction false} MergeStartsAtMost(s: seq<Span>, bound: int)
    requires StartsAtMost(s, bound)
    ensures StartsAtMost(Merge(s), bound)
    decreases |s|
  {
    if s != [] {
      MergeStartsAtMost(s[..|s| - 1], bound);
    }
  }

  /** One merge step keeps the merged spans separated, given the new span is proper and
      starts no earlier than any merged span. */
  lemma MergeStepSeparated(m: seq<Span>, x: Span)
    requires Separated(m) && StartsAtMost(m, x.start) && x.start <= x.end
    ensures Separated(MergeStep(m, x))
  {
    if m != [] && x.start <= m[|m| - 1].end {
    } else if m != [] {
      var r := MergeStep(m, x);
      forall i, j | 0 <= i < j < |r| ensures r[i].end < r[j].start {
        if j == |m| && i < |m| - 1 {
          assert m[i].end < m[|m| - 1].start;
        }
      }
    }
  }

  /** A merge step loses no covered span and covers the new one. */
  lemma MergeStepCovers(m: seq<Span>, x: Span, b: Span)
    requires StartsAtMost(m, x.start)
    ensures CoveredBy(x, MergeStep(m, x))
    ensures CoveredBy(b, m) ==> CoveredBy(b, MergeStep(m, x))
  {
    var r := MergeStep(m, x);
    if m != [] && x.start <= m[|m| - 1].end {
      assert Within(x, r[|m| - 1]);
    } else {
      assert Within(x, r[|m|]);
    }
    if CoveredBy(b, m) {
      var k :| 0 <= k < |m| && Within(b, m[k]);
      assert Within(b, r[k]);
    }
  }

  /** Over spans sorted by start, the merge yields separated spans, and every input span
      lies inside one of them. */
  lemma {:induction false} MergeSeparates(s: seq<Span>)
    requires StartsSorted(s) && AllProper(s)
    ensures Separated(Merge(s))
    ensures forall i :: 0 <= i < |s| ==> CoveredBy(s[i], Merge(s))
    decreases |s|
  {
    if s != [] {
      var p, x := s[..|s| - 1], s[|s| - 1];
      MergeSeparates(p);
      MergeStartsAtMost(p, x.start);
      MergeStepSeparated(Merge(p), x);
      forall i | 0 <= i < |s| ensures CoveredBy(s[i], Merge(s)) {
        MergeStepCovers(Merge(p), x, s[i]);
        if i < |p| {
          assert s[i] == p[i];
        }
      }
    }
  }

  /** Merging adds no time: every instant of a merged span lies in one of the input
      spans. */
  lemma {:induction false} MergeAddsNothing(s: seq<Span>, k: int, t: int)
    requires 0 <= k < |Merge(s)| && Holds(Merge(s)[k], t)
    ensures exists i :: 0 <= i < |s| && Holds(s[i], t)
    decreases |s|
  {
    var p, x := s[..|s| - 1], s[|s| - 1];
    var m := Merge(p);
    if (m != [] && x.start <= m[|m| - 1].end && k == |m| - 1 && t >= m[|m| - 1].end) || (!(m != [] && x.start <= m[|m| - 1].end) && k == |m|) {
      assert Holds(s[|s| - 1], t);
    } else {
      assert Holds(m[k], t);
      MergeAddsNothing(p, k, t);
      var i :| 0 <= i < |p| && Holds(p[i], t);
      assert s[i] == p[i];
    }
  }

  // ---- Gaps ----

  /** The gap sweep from `cursor`: the gap before each merged span, if any, then the
      cursor jumps past the span; after the last span, the gap up to `end`, if any. */
  function Gaps(ms: seq<Span>, cursor: int, end: int): (r: seq<Span>)
    decreases |ms|
  {
    if ms == [] then (if cursor < end then [Span(cursor, end)] else [])
    else (if cursor < ms[0].start then [Span(cursor, ms[0].start)] else []) + Gaps(ms[1..], Max(cursor, ms[0].end), end)
  }

  /** The sweep loses no time: an instant from the cursor up to the end that no merged span
      holds lies in one of the gaps. */
  lemma {:induction false} GapsKeepFree(ms: seq<Span>, cursor: int, end: int, t: int)
    requires cursor <= t < end
    requires forall k :: 0 <= k < |ms| ==> !Holds(ms[k], t)
    ensures exists i :: 0 <= i < |Gaps(ms, cursor, end)| && Holds(Gaps(ms, cursor, end)[i], t)
    decreases |ms|
  {
    if ms == [] {
      assert Holds(Gaps(ms, cursor, end)[0], t);
    } else {
      var head := if cursor < ms[0].start then [Span(cursor, ms[0].start)] else [];
      var tail := Gaps(ms[1..], Max(cursor, ms[0].end), end);
      assert Gaps(ms, cursor, end) == head + tail;
      if t < ms[0].start {
        assert Holds((head + tail)[0], t);
      } else {
        assert !Holds(ms[0], t);
        forall k | 0 <= k < |ms[1..]| ensures !Holds(ms[1..][k], t) {
          assert ms[1..][k] == ms[k + 1];
        }
        GapsKeepFree(ms[1..], Max(cursor, ms[0].end), end, t);
        var i :| 0 <= i < |tail| && Holds(tail[i], t);
        assert (head + tail)[|head| + i] == tail[i];
      }
    }
  }

  /** Gaps are non-empty and start at the cursor or later. */
  lemma {:induction false} GapsAfterCursor(ms: seq<Span>, cursor: int, end: int)
    ensures forall i :: 0 <= i < |Gaps(ms, cursor, end)| ==> cursor <= Gaps(ms, cursor, end)[i].start < Gaps(ms, cursor, end)[i].end
    decreases |ms|
  {
    if ms != [] {
      GapsAfterCursor(ms[1..], Max(cursor, ms[0].end), end);
    }
  }

  lemma SeparatedTail(ms: seq<Span>)
    requires Separated(ms) && ms != []
    ensures Separated(ms[1..])
  {
    forall i, j | 0 <= i < j < |ms[1..]| ensures ms[1..][i].end < ms[1..][j].start {
      assert ms[1..][i] == ms[i + 1] && ms[1..][j] == ms[j + 1];
    }
  }

  /** Gaps come in order: each ends before the next starts. */
  lemma {:induction false} GapsOrdered(ms: seq<Span>, cursor: int, end: int)
    requires AllProper(ms)
    ensures Lists.Pairwise(Gaps(ms, cursor, end), Before)
    decreases |ms|
  {
    if ms != [] {
      var next := Max(cursor, ms[0].end);
      var head := if cursor < ms[0].start then [Span(cursor, ms[0].start)] else [];
      var tail := Gaps(ms[1..], next, end);
      assert AllProper(ms[1..]) by {
        forall i | 0 <= i < |ms[1..]| ensures ms[1..][i].start <= ms[1..][i].end {
          assert ms[1..][i] == ms[i + 1];
        }
      }
      GapsOrdered(ms[1..], next, end);
      GapsAfterCursor(ms[1..], next, end);
      var g := head + tail;
      assert g == Gaps(ms, cursor, end);
      if head == [] {
        assert g == tail;
      } else {
        forall i, j | 0 <= i < j < |g| ensures Before(g[i], g[j]) {
          assert g[j] == tail[j - 1] && next <= tail[j - 1].start;
          if 0 < i {
            assert g[i] == tail[i - 1];
            assert Before(tail[i - 1], tail[j - 1]);
          }
        }
      }
    }
  }

  /** Gaps between separated spans share no instant with any of them. */
  lemma {:induction false} GapsApart(ms: seq<Span>, cursor: int, end: int)
    requires Separated(ms)
    ensures forall i, k :: 0 <= i < |Gaps(ms, cursor, end)| && 0 <= k < |ms| ==> Disjoint(Gaps(ms, cursor, end)[i], ms[k])
    decreases |ms|
  {
    if ms != [] {
      var next := Max(cursor, ms[0].end);
      var head := if cursor < ms[0].start then [Span(cursor, ms[0].start)] else [];
      var tail := Gaps(ms[1..], next, end);
      SeparatedTail(ms);
      GapsApart(ms[1..], next, end);
      GapsAfterCursor(ms[1..], next, end);
      var g := head + tail;
      assert g == Gaps(ms, cursor, end);
      forall i, k | 0 <= i < |g| && 0 <= k < |ms| ensures Disjoint(g[i], ms[k]) {
        if i < |head| {
          if k > 0 { assert ms[0].end < ms[k].start; }
        } else {
          assert g[i] == tail[i - |head|];
          if k > 0 { assert ms[1..][k - 1] == ms[k]; }
        }
      }
    }
  }

  /** When every merged span starts by `end`, no gap runs past `end`. */
  lemma {:induction false} GapsEndBy(ms: seq<Span>, cursor: int, end: int)
    requires StartsAtMost(ms, end)
    ensures forall i :: 0 <= i < |Gaps(ms, cursor, end)| ==> Gaps(ms, cursor, end)[i].end <= end
    decreases |ms|
  {
    if ms != [] {
      GapsEndBy(ms[1..], Max(cursor, ms[0].end), end);
    }
  }

  /** Over proper spans sorted by start, all starting by `end`: an instant from `start` up
      to `end` that no span holds lies in a gap of the merged spans that lies within
      [start, end) and is clear of every span. */
  lemma FreeInstantInGap(sorted: seq<Span>, start: int, end: int, t: int)
    requires StartsSorted(sorted) && AllProper(sorted) && StartsAtMost(sorted, end)
    requires start <= t < end
    requires forall i :: 0 <= i < |sorted| ==> !Holds(sorted[i], t)
    ensures exists g :: (g in Gaps(Merge(sorted), start, end) && Holds(g, t) && start <= g.start && g.end <= end
      && forall i :: 0 <= i < |sorted| ==> Disjoint(g, sorted[i]))
  {
    var merged := Merge(sorted);
    var gaps := Gaps(merged, start, end);
    MergeSeparates(sorted);
    MergeStartsAtMost(sorted, end);
    forall k | 0 <= k < |merged| ensures !Holds(merged[k], t) {
      if Holds(merged[k], t) {
        MergeAddsNothing(sorted, k, t);
      }
    }
    GapsKeepFree(merged, start, end, t);
    var j :| 0 <= j < |gaps| && Holds(gaps[j], t);
    var g := gaps[j];
    GapsAfterCursor(merged, start, end);
    GapsEndBy(merged, start, end);
    GapsApart(merged, start, end);
    forall i | 0 <= i < |sorted| ensures Disjoint(g, sorted[i]) {
      ApartFromCovered(g, sorted[i], merged);
    }
  }

  /** A gap apart from a merged span is apart from every span that span covers. */
  lemma ApartFromCovered(g: Span, b: Span, ms: seq<Span>)
    requires CoveredBy(b, ms)
    requires forall k :: 0 <= k < |ms| ==> Disjoint(g, ms[k])
    ensures Disjoint(g, b)
  {
    var k :| 0 <= k < |ms| && Within(b, ms[k]);
    assert Disjoint(g, ms[k]);
  }
}
