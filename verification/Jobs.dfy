/** Turning missing coverage into backfill and catch-up jobs. */
module Jobs {
  import opened Basics
  import opened Sorting
  import opened Intervals
  import opened Pages

  const MAX_KINDS := 30
  const OVERLAP := 600

  datatype Row = Row(kind: nat, intervals: seq<Interval>)

  /** What `recordsFor` read: one entry per account, one row per kind. */
  datatype AccountRows = AccountRows(pubkey: nat, rows: seq<Row>)

  ghost predicate DistinctKinds(rows: seq<Row>) {
    forall i, j | 0 <= i < j < |rows| :: rows[i].kind != rows[j].kind
  }

  ghost predicate DistinctAccounts(records: seq<AccountRows>) {
    && (forall i, j | 0 <= i < j < |records| :: records[i].pubkey != records[j].pubkey)
    && (forall i | 0 <= i < |records| :: DistinctKinds(records[i].rows))
    && (forall i | 0 <= i < |records| :: forall j | 0 <= j < |records[i].rows| :: NormalForm(records[i].rows[j].intervals))
  }

  /** Which ranges of a row are to be read. */
  type Wanted = Row -> seq<Interval>

  // ---- one rectangle per (account, kind, range) ----

  function Single(author: nat, kind: nat, range: Interval): Filter {
    Filter([author], [kind], range.since, range.until)
  }

  function RangeSingles(author: nat, kind: nat, ranges: seq<Interval>): (r: seq<Filter>)
    ensures |r| == |ranges| && forall i | 0 <= i < |ranges| :: r[i] == Single(author, kind, ranges[i])
  {
    seq(|ranges|, i requires 0 <= i < |ranges| => Single(author, kind, ranges[i]))
  }

  function RowSingles(author: nat, rows: seq<Row>, wanted: Wanted): seq<Filter> {
    if rows == [] then []
    else
      var n := |rows| - 1;
      RowSingles(author, rows[..n], wanted) + RangeSingles(author, rows[n].kind, wanted(rows[n]))
  }

  function Singles(records: seq<AccountRows>, wanted: Wanted): seq<Filter> {
    if records == [] then []
    else
      var n := |records| - 1;
      Singles(records[..n], wanted) + RowSingles(records[n].pubkey, records[n].rows, wanted)
  }

  // ---- insertion-ordered maps, as lists with distinct keys ----

  predicate SameRange(a: Filter, b: Filter) {
    a.since == b.since && a.until == b.until
  }

  /** Adds one author under the key (range, kind). */
  function AddAuthor(entries: seq<Filter>, x: Filter): seq<Filter> {
    if entries == [] then [x]
    else if SameRange(entries[0], x) && entries[0].kinds == x.kinds then
      [entries[0].(authors := entries[0].authors + x.authors)] + entries[1..]
    else [entries[0]] + AddAuthor(entries[1..], x)
  }

  function ByKind(singles: seq<Filter>): seq<Filter> {
    if singles == [] then []
    else
      var n := |singles| - 1;
      AddAuthor(ByKind(singles[..n]), singles[n])
  }

  /** Adds the kinds of one job under the key (range, authors). */
  function AddKinds(groups: seq<Filter>, job: Filter): seq<Filter> {
    if groups == [] then [job]
    else if SameRange(groups[0], job) && groups[0].authors == job.authors then
      [groups[0].(kinds := groups[0].kinds + job.kinds)] + groups[1..]
    else [groups[0]] + AddKinds(groups[1..], job)
  }

  function Number(n: nat): int { n }

  function SortAuthors(job: Filter): Filter {
    job.(authors := SortBy(job.authors, Number))
  }

  function Grouped(jobs: seq<Filter>): seq<Filter> {
    if jobs == [] then []
    else
      var n := |jobs| - 1;
      AddKinds(Grouped(jobs[..n]), SortAuthors(jobs[n]))
  }

  /** `[...new Set(items)]` */
  function Dedup(items: seq<nat>): seq<nat> {
    if items == [] then []
    else
      var n := |items| - 1;
      Dedup(items[..n]) + if items[n] in items[..n] then [] else [items[n]]
  }

  function GroupsOf<T>(items: seq<T>, size: nat): seq<seq<T>>
    requires size > 0
    decreases |items|
  {
    if |items| <= size then (if items == [] then [] else [items])
    else [items[..size]] + GroupsOf(items[size..], size)
  }

  function WithKinds(job: Filter, groups: seq<seq<nat>>): (r: seq<Filter>)
    ensures |r| == |groups| && forall i | 0 <= i < |groups| :: r[i] == job.(kinds := groups[i])
  {
    seq(|groups|, i requires 0 <= i < |groups| => job.(kinds := groups[i]))
  }

  function Sliced(groups: seq<Filter>): seq<Filter> {
    if groups == [] then []
    else
      var n := |groups| - 1;
      Sliced(groups[..n]) + WithKinds(groups[n], GroupsOf(Dedup(groups[n].kinds), MAX_KINDS))
  }

  function Oldness(job: Filter): int { -job.until }

  function Combined(jobs: seq<Filter>): seq<Filter> {
    SortBy(Sliced(Grouped(jobs)), Oldness)
  }

  method CombineJobs(jobs: seq<Filter>) returns (result: seq<Filter>)
    ensures result == Combined(jobs)
  {
    hide AddKinds, SortAuthors, WithKinds, GroupsOf, Dedup, SortBy;
    var grouped: seq<Filter> := [];
    for i := 0 to |jobs|
      invariant grouped == Grouped(jobs[..i])
    {
      assert jobs[..i + 1][..i] == jobs[..i];
      grouped := AddKinds(grouped, SortAuthors(jobs[i]));
    }
    assert jobs[..|jobs|] == jobs;
    var sliced: seq<Filter> := [];
    for i := 0 to |grouped|
      invariant sliced == Sliced(grouped[..i])
    {
      assert grouped[..i + 1][..i] == grouped[..i];
      sliced := sliced + WithKinds(grouped[i], GroupsOf(Dedup(grouped[i].kinds), MAX_KINDS));
    }
    assert grouped[..|grouped|] == grouped;
    result := SortBy(sliced, Oldness);
  }

  /** Jobs for the missing coverage of every row inside its bounds, `None` meaning that the row is skipped. */
  method JobsFor(records: seq<AccountRows>, boundsFor: Row -> Option<Interval>) returns (jobs: seq<Filter>)
    ensures jobs == Combined(ByKind(Singles(records, MissingIn(boundsFor))))
  {
    ghost var wanted := MissingIn(boundsFor);
    var byKind: seq<Filter> := [];
    for i := 0 to |records|
      invariant byKind == ByKind(Singles(records[..i], wanted))
    {
      assert records[..i + 1][..i] == records[..i];
      byKind := AddRows(byKind, records[i], boundsFor, Singles(records[..i], wanted));
    }
    assert records[..|records|] == records;
    jobs := CombineJobs(byKind);
  }

  method AddRows(entries: seq<Filter>, account: AccountRows, boundsFor: Row -> Option<Interval>, ghost seen: seq<Filter>)
    returns (byKind: seq<Filter>)
    requires entries == ByKind(seen)
    ensures byKind == ByKind(seen + RowSingles(account.pubkey, account.rows, MissingIn(boundsFor)))
  {
    ghost var wanted := MissingIn(boundsFor);
    byKind := entries;
    assert seen + [] == seen;
    for j := 0 to |account.rows|
      invariant byKind == ByKind(seen + RowSingles(account.pubkey, account.rows[..j], wanted))
    {
      var row := account.rows[j];
      ghost var before := seen + RowSingles(account.pubkey, account.rows[..j], wanted);
      RowSinglesStep(seen, account.pubkey, account.rows, j, wanted);
      var gaps: seq<Interval> := [];
      var bounds := boundsFor(row);
      if bounds.Some? {
        gaps := MissingCoverage(row.intervals, bounds.value.since, bounds.value.until);
      }
      byKind := AddGaps(byKind, account.pubkey, row.kind, gaps, before);
    }
    assert account.rows[..|account.rows|] == account.rows;
  }

  lemma RowSinglesStep(seen: seq<Filter>, pubkey: nat, rows: seq<Row>, j: nat, wanted: Wanted)
    requires j < |rows|
    ensures seen + RowSingles(pubkey, rows[..j + 1], wanted)
         == seen + RowSingles(pubkey, rows[..j], wanted) + RangeSingles(pubkey, rows[j].kind, wanted(rows[j]))
  {
    assert rows[..j + 1][..j] == rows[..j];
  }

  method AddGaps(entries: seq<Filter>, pubkey: nat, kind: nat, gaps: seq<Interval>, ghost seen: seq<Filter>)
    returns (byKind: seq<Filter>)
    requires entries == ByKind(seen)
    ensures byKind == ByKind(seen + RangeSingles(pubkey, kind, gaps))
  {
    byKind := entries;
    assert seen + RangeSingles(pubkey, kind, gaps[..0]) == seen;
    for m := 0 to |gaps|
      invariant byKind == ByKind(seen + RangeSingles(pubkey, kind, gaps[..m]))
    {
      var x := Single(pubkey, kind, gaps[m]);
      ghost var before := seen + RangeSingles(pubkey, kind, gaps[..m]);
      assert seen + RangeSingles(pubkey, kind, gaps[..m + 1]) == before + [x];
      assert (before + [x])[..|before|] == before;
      byKind := AddAuthor(byKind, x);
    }
    assert gaps[..|gaps|] == gaps;
  }

  function MissingIn(boundsFor: Row -> Option<Interval>): Wanted {
    (row: Row) => var b := boundsFor(row);
      if b.None? then [] else Missing(row.intervals, b.value.since, b.value.until)
  }
}
