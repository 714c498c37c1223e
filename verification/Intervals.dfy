/** Coverage intervals: closed ranges of whole seconds, and their unique normal form. */
module Intervals {
  import opened Basics
  import opened Sorting

  datatype Interval = Interval(since: int, until: int)

  ghost predicate Contains(r: Interval, t: int) {
    r.since <= t <= r.until
  }

  ghost predicate Covers(s: seq<Interval>, t: int) {
    exists i | 0 <= i < |s| :: Contains(s[i], t)
  }

  /** No range is empty. */
  ghost predicate AllValid(s: seq<Interval>) {
    forall i | 0 <= i < |s| :: s[i].since <= s[i].until
  }

  /** Ascending, non-empty, and with at least one uncovered second between neighbours. */
  ghost predicate NormalForm(s: seq<Interval>) {
    && AllValid(s)
    && forall i, j | 0 <= i < j < |s| :: s[i].until + 1 < s[j].since
  }

  ghost predicate SameCover(a: seq<Interval>, b: seq<Interval>) {
    forall t :: Covers(a, t) <==> Covers(b, t)
  }

  // ---- mergeCoverage ----

  function Since(r: Interval): int { r.since }

  function Absorb(acc: seq<Interval>, x: Interval): seq<Interval> {
    if acc != [] && x.since <= acc[|acc| - 1].until + 1
    then acc[|acc| - 1 := Interval(acc[|acc| - 1].since, Max(acc[|acc| - 1].until, x.until))]
    else acc + [x]
  }

  function MergeFrom(acc: seq<Interval>, rest: seq<Interval>): seq<Interval>
    decreases |rest|
  {
    if rest == [] then acc else MergeFrom(Absorb(acc, rest[0]), rest[1..])
  }

  function Merge(ranges: seq<Interval>): seq<Interval> {
    MergeFrom([], SortBy(ranges, Since))
  }

  method MergeCoverage(ranges: seq<Interval>) returns (result: seq<Interval>)
    ensures result == Merge(ranges)
  {
    result := [];
    var sorted := SortBy(ranges, Since);
    for i := 0 to |sorted|
      invariant MergeFrom(result, sorted[i..]) == Merge(ranges)
    {
      var x := sorted[i];
      assert sorted[i..][0] == x && sorted[i..][1..] == sorted[i + 1..];
      if result != [] && x.since <= result[|result| - 1].until + 1 {
        var last := result[|result| - 1];
        result := result[|result| - 1 := Interval(last.since, Max(last.until, x.until))];
      } else {
        result := result + [x];
      }
    }
  }

  lemma AbsorbStep(acc: seq<Interval>, x: Interval)
    requires NormalForm(acc) && x.since <= x.until
    requires acc != [] ==> acc[|acc| - 1].since <= x.since
    ensures var r := Absorb(acc, x);
            NormalForm(r) && r != [] && r[|r| - 1].since <= x.since
    ensures forall t :: Covers(Absorb(acc, x), t) <==> Covers(acc, t) || Contains(x, t)
  {
    var r := Absorb(acc, x);
    forall t ensures Covers(r, t) <==> Covers(acc, t) || Contains(x, t) {
      if acc != [] && x.since <= acc[|acc| - 1].until + 1 {
        var n := |acc| - 1;
        assert forall i | 0 <= i < n :: r[i] == acc[i];
        assert Contains(r[n], t) <==> Contains(acc[n], t) || Contains(x, t);
        if Covers(acc, t) {
          var i :| 0 <= i < |acc| && Contains(acc[i], t);
          assert i == n || Contains(r[i], t);
        }
      } else {
        assert r[|acc|] == x;
        if Covers(acc, t) {
          var i :| 0 <= i < |acc| && Contains(acc[i], t);
          assert Contains(r[i], t);
        }
      }
    }
  }

  lemma {:induction false} MergeFromDenotes(acc: seq<Interval>, rest: seq<Interval>)
    requires NormalForm(acc) && AllValid(rest) && SortedBy(rest, Since)
    requires acc != [] && rest != [] ==> acc[|acc| - 1].since <= rest[0].since
    ensures NormalForm(MergeFrom(acc, rest))
    ensures forall t :: Covers(MergeFrom(acc, rest), t) <==> Covers(acc, t) || Covers(rest, t)
    decreases |rest|
  {
    if rest != [] {
      AbsorbStep(acc, rest[0]);
      assert forall i | 0 <= i < |rest[1..]| :: rest[1..][i] == rest[i + 1];
      if |rest| > 1 { assert Since(rest[0]) <= Since(rest[1]); }
      MergeFromDenotes(Absorb(acc, rest[0]), rest[1..]);
      forall t ensures Covers(rest, t) <==> Contains(rest[0], t) || Covers(rest[1..], t) {
        CoversSplit([rest[0]], rest[1..], t);
        assert rest == [rest[0]] + rest[1..];
      }
    }
  }

  lemma CoversSplit(a: seq<Interval>, b: seq<Interval>, t: int)
    ensures Covers(a + b, t) <==> Covers(a, t) || Covers(b, t)
    ensures |a| == 1 ==> (Covers(a, t) <==> Contains(a[0], t))
    ensures |b| == 1 ==> (Covers(b, t) <==> Contains(b[0], t))
  {
    if Covers(a, t) {
      var i :| 0 <= i < |a| && Contains(a[i], t);
      assert (a + b)[i] == a[i];
    }
    if Covers(b, t) {
      var i :| 0 <= i < |b| && Contains(b[i], t);
      assert (a + b)[|a| + i] == b[i];
    }
  }

  lemma CoversPerm(a: seq<Interval>, b: seq<Interval>)
    requires forall x :: x in a <==> x in b
    ensures SameCover(a, b)
    ensures AllValid(a) ==> AllValid(b)
  {
    forall t ensures Covers(a, t) <==> Covers(b, t) {
      if Covers(a, t) {
        var i :| 0 <= i < |a| && Contains(a[i], t);
        assert a[i] in b;
      }
      if Covers(b, t) {
        var i :| 0 <= i < |b| && Contains(b[i], t);
        assert b[i] in a;
      }
    }
    if AllValid(a) {
      forall i | 0 <= i < |b| ensures b[i].since <= b[i].until {
        assert b[i] in a;
      }
    }
  }

  /** The merged list is in normal form and denotes exactly the union of the ranges. */
  lemma MergeDenotes(ranges: seq<Interval>)
    requires AllValid(ranges)
    ensures NormalForm(Merge(ranges))
    ensures SameCover(Merge(ranges), ranges)
  {
    var sorted := SortBy(ranges, Since);
    SortByIsSorted(ranges, Since);
    CoversPerm(ranges, sorted);
    MergeFromDenotes([], sorted);
  }

  lemma HeadOfNormalForm(a: seq<Interval>, t: int)
    requires NormalForm(a) && a != []
    ensures Covers(a, t) ==> a[0].since <= t
    ensures Covers(a, a[0].since) && Covers(a, a[0].until)
    ensures !Covers(a, a[0].until + 1)
    ensures a[0].since <= t <= a[0].until ==> Covers(a, t)
    ensures Covers(a[1..], t) <==> Covers(a, t) && t > a[0].until
    ensures NormalForm(a[1..])
  {
    assert Contains(a[0], a[0].since) && Contains(a[0], a[0].until);
    assert a == [a[0]] + a[1..];
    CoversSplit([a[0]], a[1..], t);
    assert forall i | 0 <= i < |a[1..]| :: a[1..][i] == a[i + 1];
  }

  /** A set of seconds has at most one normal form. */
  lemma {:induction false} NormalFormUnique(a: seq<Interval>, b: seq<Interval>)
    requires NormalForm(a) && NormalForm(b) && SameCover(a, b)
    ensures a == b
  {
    if a == [] || b == [] {
      if a != [] { HeadOfNormalForm(a, 0); }
      if b != [] { HeadOfNormalForm(b, 0); }
    } else {
      HeadOfNormalForm(a, b[0].since);
      HeadOfNormalForm(b, a[0].since);
      HeadOfNormalForm(a, b[0].until + 1);
      HeadOfNormalForm(b, a[0].until + 1);
      assert a[0] == b[0];
      forall t ensures Covers(a[1..], t) <==> Covers(b[1..], t) {
        HeadOfNormalForm(a, t);
        HeadOfNormalForm(b, t);
      }
      NormalFormUnique(a[1..], b[1..]);
    }
  }

  /** Merging depends only on which seconds are claimed: order, repetition and splitting are irrelevant. */
  lemma MergeCanonical(a: seq<Interval>, b: seq<Interval>)
    requires AllValid(a) && AllValid(b)
    ensures SameCover(a, b) <==> Merge(a) == Merge(b)
  {
    MergeDenotes(a);
    MergeDenotes(b);
    if SameCover(a, b) { NormalFormUnique(Merge(a), Merge(b)); }
  }

  /** A list already in normal form is a fixed point of merging. */
  lemma MergeFixed(a: seq<Interval>)
    requires NormalForm(a)
    ensures Merge(a) == a
  {
    MergeDenotes(a);
    NormalFormUnique(Merge(a), a);
  }

  /** Marking in two steps is marking once. */
  lemma MergeInSteps(a: seq<Interval>, b: seq<Interval>)
    requires AllValid(a) && AllValid(b)
    ensures Merge(Merge(a) + b) == Merge(a + b)
  {
    MergeDenotes(a);
    forall t ensures Covers(Merge(a) + b, t) <==> Covers(a + b, t) {
      CoversSplit(Merge(a), b, t);
      CoversSplit(a, b, t);
    }
    MergeCanonical(Merge(a) + b, a + b);
  }

  /** In normal form, a run of covered seconds lies inside one interval. */
  lemma {:induction false} RunInOneInterval(a: seq<Interval>, lo: int, hi: int)
    requires NormalForm(a) && lo <= hi
    requires forall t | lo <= t <= hi :: Covers(a, t)
    ensures exists i | 0 <= i < |a| :: a[i].since <= lo && hi <= a[i].until
    decreases hi - lo
  {
    if lo == hi {
      assert Covers(a, lo);
    } else {
      RunInOneInterval(a, lo, hi - 1);
      var i :| 0 <= i < |a| && a[i].since <= lo && hi - 1 <= a[i].until;
      assert Covers(a, hi);
      var j :| 0 <= j < |a| && Contains(a[j], hi);
      assert i == j;
    }
  }

  // ---- missingCoverage ----

  /** Gaps in ascending order, for the window that still starts at `since`. */
  function GapsFrom(intervals: seq<Interval>, since: int, until: int): seq<Interval> {
    if intervals == [] || (intervals[0].until >= since && intervals[0].since > until) then
      if since <= until then [Interval(since, until)] else []
    else if intervals[0].until < since then
      GapsFrom(intervals[1..], since, until)
    else
      (if intervals[0].since > since then [Interval(since, intervals[0].since - 1)] else [])
      + GapsFrom(intervals[1..], Max(since, intervals[0].until + 1), until)
  }

  function Reverse<T>(s: seq<T>): (r: seq<T>)
    ensures |r| == |s| && forall i | 0 <= i < |s| :: r[i] == s[|s| - 1 - i]
  {
    seq(|s|, i requires 0 <= i < |s| => s[|s| - 1 - i])
  }

  function Missing(intervals: seq<Interval>, since: int, until: int): seq<Interval> {
    Reverse(GapsFrom(intervals, since, until))
  }

  method MissingCoverage(intervals: seq<Interval>, since: int, until: int) returns (result: seq<Interval>)
    ensures result == Missing(intervals, since, until)
  {
    var gaps := [];
    var from := since;
    var i := 0;
    while i < |intervals|
      invariant 0 <= i <= |intervals|
      invariant gaps + GapsFrom(intervals[i..], from, until) == GapsFrom(intervals, since, until)
    {
      var r := intervals[i];
      assert intervals[i..][0] == r && intervals[i..][1..] == intervals[i + 1..];
      i := i + 1;
      if r.until < from { continue; }
      if r.since > until {
        i := i - 1;
        break;
      }
      if r.since > from { gaps := gaps + [Interval(from, r.since - 1)]; }
      from := Max(from, r.until + 1);
    }
    if from <= until { gaps := gaps + [Interval(from, until)]; }
    result := Reverse(gaps);
  }

  ghost predicate Within(s: seq<Interval>, lo: int, hi: int) {
    forall i | 0 <= i < |s| :: lo <= s[i].since && s[i].until <= hi
  }

  lemma GapsBefore(intervals: seq<Interval>, since: int, until: int)
    requires NormalForm(intervals)
    requires intervals == [] || (intervals[0].until >= since && intervals[0].since > until)
    ensures var g := GapsFrom(intervals, since, until);
            NormalForm(g) && Within(g, since, until)
    ensures forall t :: Covers(GapsFrom(intervals, since, until), t) <==> since <= t <= until && !Covers(intervals, t)
  {
    var g := GapsFrom(intervals, since, until);
    forall t ensures Covers(g, t) <==> since <= t <= until && !Covers(intervals, t) {
      if since <= until { assert Contains(g[0], t) <==> since <= t <= until; }
      if intervals != [] { HeadOfNormalForm(intervals, t); }
    }
  }

  /** What one interval that reaches into the window contributes. */
  lemma GapsAround(intervals: seq<Interval>, since: int, until: int, tail: seq<Interval>)
    requires NormalForm(intervals) && intervals != []
    requires intervals[0].until >= since && intervals[0].since <= until
    requires NormalForm(tail) && Within(tail, Max(since, intervals[0].until + 1), until)
    requires forall t :: Covers(tail, t) <==> Max(since, intervals[0].until + 1) <= t <= until && !Covers(intervals[1..], t)
    ensures var head := if intervals[0].since > since then [Interval(since, intervals[0].since - 1)] else [];
            && NormalForm(head + tail) && Within(head + tail, since, until)
            && forall t :: Covers(head + tail, t) <==> since <= t <= until && !Covers(intervals, t)
  {
    var head := if intervals[0].since > since then [Interval(since, intervals[0].since - 1)] else [];
    forall t ensures Covers(head + tail, t) <==> since <= t <= until && !Covers(intervals, t) {
      HeadOfNormalForm(intervals, t);
      CoversSplit(head, tail, t);
    }
  }

  lemma {:induction false} GapsFromExact(intervals: seq<Interval>, since: int, until: int)
    requires NormalForm(intervals)
    ensures var g := GapsFrom(intervals, since, until);
            NormalForm(g) && Within(g, since, until)
    ensures forall t :: Covers(GapsFrom(intervals, since, until), t) <==> since <= t <= until && !Covers(intervals, t)
  {
    if intervals == [] || (intervals[0].until >= since && intervals[0].since > until) {
      GapsBefore(intervals, since, until);
    } else {
      HeadOfNormalForm(intervals, 0);
      if intervals[0].until < since {
        GapsFromExact(intervals[1..], since, until);
        forall t
          ensures Covers(GapsFrom(intervals, since, until), t) <==> since <= t <= until && !Covers(intervals, t)
        {
          HeadOfNormalForm(intervals, t);
        }
      } else {
        var next := Max(since, intervals[0].until + 1);
        GapsFromExact(intervals[1..], next, until);
        GapsAround(intervals, since, until, GapsFrom(intervals[1..], next, until));
      }
    }
  }

  /** Newest first, non-empty and non-adjacent. */
  ghost predicate NewestFirst(s: seq<Interval>) {
    && AllValid(s)
    && forall i, j | 0 <= i < j < |s| :: s[j].until + 1 < s[i].since
  }

  /** The gaps are exactly the uncovered seconds of the window, newest first, disjoint and non-adjacent. */
  lemma MissingExact(intervals: seq<Interval>, since: int, until: int)
    requires NormalForm(intervals)
    ensures NewestFirst(Missing(intervals, since, until))
    ensures Within(Missing(intervals, since, until), since, until)
    ensures forall t :: Covers(Missing(intervals, since, until), t) <==> since <= t <= until && !Covers(intervals, t)
  {
    var g := GapsFrom(intervals, since, until);
    var m := Missing(intervals, since, until);
    GapsFromExact(intervals, since, until);
    assert forall x :: x in g <==> x in m by {
      forall x ensures x in g <==> x in m {
        if x in g { var i :| 0 <= i < |g| && g[i] == x; assert m[|g| - 1 - i] == x; }
      }
    }
    CoversPerm(g, m);
  }

  /** Filling every gap closes the window: same result as claiming the window, and no gap is left. */
  lemma FillingGapsCloses(intervals: seq<Interval>, since: int, until: int)
    requires NormalForm(intervals) && since <= until
    ensures var filled := Merge(intervals + Missing(intervals, since, until));
            && filled == Merge(intervals + [Interval(since, until)])
            && Missing(filled, since, until) == []
  {
    var m := Missing(intervals, since, until);
    var whole := [Interval(since, until)];
    MissingExact(intervals, since, until);
    forall t ensures Covers(intervals + m, t) <==> Covers(intervals + whole, t) {
      CoversSplit(intervals, m, t);
      CoversSplit(intervals, whole, t);
    }
    MergeCanonical(intervals + m, intervals + whole);
    MergeDenotes(intervals + whole);
    var filled := Merge(intervals + whole);
    MissingExact(filled, since, until);
    if Missing(filled, since, until) != [] {
      var g := Missing(filled, since, until)[0];
      assert Contains(g, g.since);
      assert Covers(Missing(filled, since, until), g.since);
      CoversSplit(intervals, whole, g.since);
      assert false;
    }
  }
}
