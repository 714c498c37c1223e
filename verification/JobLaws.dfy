/** What combining makes of jobs: nothing that could share a job is left apart, and where the catch-up windows lie. */
module JobLaws {
  import opened Basics
  import opened Sorting
  import opened Intervals
  import opened Pages
  import opened Jobs
  import opened JobTiling
  import opened CatchUp

  // ---- one entry for each range and kind, one group for each range and authors ----

  /** No two entries have the same bounds and the same kinds. */
  ghost predicate ByBoundsAndKinds(es: seq<Filter>) {
    forall i, j | 0 <= i < j < |es| :: !(es[i].since == es[j].since && es[i].until == es[j].until && es[i].kinds == es[j].kinds)
  }

  lemma {:induction false} AddAuthorKeys(es: seq<Filter>, x: Filter)
    requires ByBoundsAndKinds(es)
    ensures ByBoundsAndKinds(AddAuthor(es, x))
    ensures forall y | y in AddAuthor(es, x) ::
              (y.since == x.since && y.until == x.until && y.kinds == x.kinds)
              || exists i | 0 <= i < |es| :: y.since == es[i].since && y.until == es[i].until && y.kinds == es[i].kinds
  {
    if es != [] {
      var rest := es[1..];
      assert ByBoundsAndKinds(rest);
      AddAuthorKeys(rest, x);
      var r := AddAuthor(es, x);
      if SameRange(es[0], x) && es[0].kinds == x.kinds {
        forall y | y in r ensures y == r[0] || y in rest { }
      } else {
        var tail := AddAuthor(rest, x);
        forall j | 0 <= j < |tail| ensures !(es[0].since == tail[j].since && es[0].until == tail[j].until && es[0].kinds == tail[j].kinds) {
          assert tail[j] in tail;
        }
        forall y | y in r ensures y == es[0] || y in tail { }
      }
    }
  }

  /** Singles with the same bounds and kind become one entry, with all their authors. */
  lemma {:induction false} ByKindIs(singles: seq<Filter>)
    ensures ByBoundsAndKinds(ByKind(singles))
  {
    if singles != [] {
      var n := |singles| - 1;
      ByKindIs(singles[..n]);
      AddAuthorKeys(ByKind(singles[..n]), singles[n]);
    }
  }

  ghost predicate ByBoundsAndAuthors(es: seq<Filter>) {
    forall i, j | 0 <= i < j < |es| :: !(es[i].since == es[j].since && es[i].until == es[j].until && es[i].authors == es[j].authors)
  }

  lemma {:induction false} AddKindsKeys(es: seq<Filter>, x: Filter)
    requires ByBoundsAndAuthors(es)
    ensures ByBoundsAndAuthors(AddKinds(es, x))
    ensures forall y | y in AddKinds(es, x) ::
              (y.since == x.since && y.until == x.until && y.authors == x.authors)
              || exists i | 0 <= i < |es| :: y.since == es[i].since && y.until == es[i].until && y.authors == es[i].authors
  {
    if es != [] {
      var rest := es[1..];
      assert ByBoundsAndAuthors(rest);
      AddKindsKeys(rest, x);
      var r := AddKinds(es, x);
      if SameRange(es[0], x) && es[0].authors == x.authors {
        forall y | y in r ensures y == r[0] || y in rest { }
      } else {
        var tail := AddKinds(rest, x);
        forall j | 0 <= j < |tail| ensures !(es[0].since == tail[j].since && es[0].until == tail[j].until && es[0].authors == tail[j].authors) {
          assert tail[j] in tail;
        }
        forall y | y in r ensures y == es[0] || y in tail { }
      }
    }
  }

  ghost predicate InOrder(authors: seq<nat>) { forall i, j | 0 <= i < j < |authors| :: authors[i] <= authors[j] }

  /** Jobs with the same bounds and authors become one group, with all their kinds; authors are sorted, so their order does not matter. */
  lemma {:induction false} GroupedIs(jobs: seq<Filter>)
    ensures ByBoundsAndAuthors(Grouped(jobs)) && forall g | g in Grouped(jobs) :: InOrder(g.authors)
  {
    if jobs != [] {
      var n := |jobs| - 1;
      GroupedIs(jobs[..n]);
      SortByIsSorted(jobs[n].authors, Number);
      hide SortBy;
      var x := SortAuthors(jobs[n]);
      assert InOrder(x.authors) by {
        forall i, j | 0 <= i < j < |x.authors| ensures x.authors[i] <= x.authors[j] { assert Number(x.authors[i]) <= Number(x.authors[j]); }
      }
      AddKindsKeys(Grouped(jobs[..n]), x);
      forall g | g in Grouped(jobs) ensures InOrder(g.authors) {
        var before := Grouped(jobs[..n]);
        assert g.authors == x.authors || exists i | 0 <= i < |before| :: g.authors == before[i].authors;
      }
    }
  }

  // ---- slices of 30 kinds ----

  /** Of jobs with the same bounds and authors at most one asks for fewer than 30 kinds. */
  ghost predicate Compact(fs: seq<Filter>) {
    forall i, j | 0 <= i < |fs| && 0 <= j < |fs| && i != j && fs[i].since == fs[j].since && fs[i].until == fs[j].until && fs[i].authors == fs[j].authors ::
      |fs[i].kinds| == 30 || |fs[j].kinds| == 30
  }

  ghost predicate Sizes(groups: seq<seq<nat>>) {
    (forall i | 0 <= i < |groups| - 1 :: |groups[i]| == 30) && forall i | 0 <= i < |groups| :: 0 < |groups[i]| <= 30
  }

  lemma {:induction false} GroupsAre(items: seq<nat>)
    ensures Sizes(GroupsOf(items, MAX_KINDS))
    decreases |items|
  {
    hide Sizes;
    if |items| > MAX_KINDS {
      GroupsAre(items[MAX_KINDS..]);
      OneMore(items[..MAX_KINDS], GroupsOf(items[MAX_KINDS..], MAX_KINDS));
    } else {
      OneAlone(items);
    }
  }

  lemma OneAlone(items: seq<nat>)
    requires |items| <= MAX_KINDS
    ensures Sizes([]) && (items != [] ==> Sizes([items]))
  {
  }

  lemma OneMore(first: seq<nat>, rest: seq<seq<nat>>)
    requires |first| == 30 && Sizes(rest)
    ensures Sizes([first] + rest)
  {
  }

  lemma {:induction false} SlicedIs(groups: seq<Filter>)
    requires ByBoundsAndAuthors(groups)
    ensures Compact(Sliced(groups))
    ensures forall y | y in Sliced(groups) :: exists i | 0 <= i < |groups| ::
              y.since == groups[i].since && y.until == groups[i].until && y.authors == groups[i].authors
  {
    if groups != [] {
      var n := |groups| - 1;
      var g := groups[n];
      SlicedIs(groups[..n]);
      SlicedLast(groups);
      var before := Sliced(groups[..n]);
      GroupsAre(Dedup(g.kinds));
      var slices := WithKinds(g, GroupsOf(Dedup(g.kinds), MAX_KINDS));
      hide GroupsOf, Dedup, Sliced;
      forall y | y in before
        ensures exists i | 0 <= i < n :: y.since == groups[i].since && y.until == groups[i].until && y.authors == groups[i].authors
      {
        var i :| 0 <= i < n && y.since == groups[..n][i].since && y.until == groups[..n][i].until && y.authors == groups[..n][i].authors;
        assert groups[..n][i] == groups[i];
      }
      forall i | 0 <= i < |before|
        ensures !(before[i].since == g.since && before[i].until == g.until && before[i].authors == g.authors)
      {
        assert before[i] in before;
      }
      SlicesCompact(before, g, slices);
      forall y | y in before + slices
        ensures exists i | 0 <= i < |groups| :: y.since == groups[i].since && y.until == groups[i].until && y.authors == groups[i].authors
      {
        if y !in before { assert y in slices; }
      }
    }
  }

  lemma SlicesCompact(before: seq<Filter>, g: Filter, slices: seq<Filter>)
    requires Compact(before)
    requires forall i | 0 <= i < |before| :: !(before[i].since == g.since && before[i].until == g.until && before[i].authors == g.authors)
    requires forall i | 0 <= i < |slices| :: slices[i].since == g.since && slices[i].until == g.until && slices[i].authors == g.authors
    requires forall i | 0 <= i < |slices| - 1 :: |slices[i].kinds| == 30
    ensures Compact(before + slices)
  {
    var all := before + slices;
    forall i, j | 0 <= i < |all| && 0 <= j < |all| && i != j
        && all[i].since == all[j].since && all[i].until == all[j].until && all[i].authors == all[j].authors
      ensures |all[i].kinds| == 30 || |all[j].kinds| == 30
    {
      if i < |before| && j < |before| {
        assert all[i] == before[i] && all[j] == before[j];
      } else if i >= |before| && j >= |before| {
        assert all[i] == slices[i - |before|] && all[j] == slices[j - |before|];
      }
    }
  }

  lemma SlicedLast(groups: seq<Filter>)
    requires groups != []
    ensures var n := |groups| - 1;
            Sliced(groups) == Sliced(groups[..n]) + WithKinds(groups[n], GroupsOf(Dedup(groups[n].kinds), MAX_KINDS))
  {
  }

  lemma TwoOf<T>(s: seq<T>, r: seq<T>, i: nat, j: nat) returns (a: nat, b: nat)
    requires multiset(s) == multiset(r) && i < |r| && j < |r| && i != j
    ensures a < |s| && b < |s| && a != b && s[a] == r[i] && s[b] == r[j]
  {
    SameElements(s, r);
    assert r[i] in s && r[j] in s;
    if r[i] != r[j] {
      a :| 0 <= a < |s| && s[a] == r[i];
      b :| 0 <= b < |s| && s[b] == r[j];
    } else {
      RepeatedTwice(r, if i < j then i else j, if i < j then j else i);
      a :| 0 <= a < |s| && s[a] == r[i];
      var rest := s[..a] + s[a + 1..];
      assert s == s[..a] + [s[a]] + s[a + 1..];
      assert multiset(s)[r[i]] >= 2 && multiset(s) == multiset(rest) + multiset{s[a]};
      assert r[i] in rest;
      var k :| 0 <= k < |rest| && rest[k] == r[i];
      b := if k < a then k else k + 1;
    }
  }

  /**
   * Combining leaves nothing apart that could share a job: of jobs with the same bounds and authors at most one asks for
   * fewer than 30 kinds; authors are sorted.
   */
  lemma CombinedIsCompact(jobs: seq<Filter>)
    ensures Compact(Combined(jobs)) && forall f | f in Combined(jobs) :: InOrder(f.authors)
  {
    var groups := Grouped(jobs);
    GroupedIs(jobs);
    SlicedIs(groups);
    hide Grouped, Sliced;
    SortedCompact(Sliced(groups));
    SortByIsSorted(Sliced(groups), Oldness);
    hide SortBy, Compact, InOrder, ByBoundsAndAuthors;
    forall f | f in Combined(jobs) ensures InOrder(f.authors) {
      var i :| 0 <= i < |groups| && f.authors == groups[i].authors;
      assert groups[i] in groups;
    }
  }

  lemma SortedCompact(fs: seq<Filter>)
    requires Compact(fs)
    ensures Compact(SortBy(fs, Oldness))
  {
    var r := SortBy(fs, Oldness);
    hide SortBy;
    forall i, j | 0 <= i < |r| && 0 <= j < |r| && i != j && r[i].since == r[j].since && r[i].until == r[j].until && r[i].authors == r[j].authors
      ensures |r[i].kinds| == 30 || |r[j].kinds| == 30
    {
      var a, b := TwoOf(fs, r, i, j);
    }
  }

  // ---- the catch-up windows ----

  /** A catch-up reads from ten minutes before the newest second that a row covers to the start of the recent window. */
  lemma CatchUpIs(records: seq<AccountRows>, since: int, c: Cell)
    ensures WantedCell(records, CatchUpIn(since), c) <==>
              exists i, j | 0 <= i < |records| && 0 <= j < |records[i].rows| ::
                var row := records[i].rows[j];
                && records[i].pubkey == c.author && row.kind == c.kind && row.intervals != []
                && 0 <= c.second && row.intervals[|row.intervals| - 1].until - 600 <= c.second < since
  {
    forall i | 0 <= i < |records|
      ensures WantedInRows(records[i].rows, CatchUpIn(since), c) <==>
                exists j | 0 <= j < |records[i].rows| ::
                  var row := records[i].rows[j];
                  row.kind == c.kind && row.intervals != []
                  && 0 <= c.second && row.intervals[|row.intervals| - 1].until - 600 <= c.second < since
    {
      forall j | 0 <= j < |records[i].rows|
        ensures var row := records[i].rows[j];
                Covers(CatchUpIn(since)(row), c.second) <==>
                  row.intervals != [] && 0 <= c.second && row.intervals[|row.intervals| - 1].until - 600 <= c.second < since
      {
        WindowIs(records[i].rows[j], since, c.second);
      }
    }
  }

  lemma WindowIs(row: Row, since: int, t: int)
    ensures Covers(CatchUpIn(since)(row), t) <==>
              row.intervals != [] && 0 <= t && row.intervals[|row.intervals| - 1].until - 600 <= t < since
  {
    var range := CatchUpRange(row, since);
    if range.Some? {
      assert Contains([range.value][0], t) <==> range.value.since <= t <= range.value.until;
    }
  }
}
