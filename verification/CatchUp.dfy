/** The catch-up windows of the initial phase, and why they leave the coverage contiguous. */
module CatchUp {
  import opened Basics
  import opened Intervals
  import opened Pages
  import opened Jobs
  import opened JobTiling

  /** From ten minutes before the row's newest covered second up to the start of the recent window. */
  function CatchUpRange(row: Row, since: int): Option<Interval> {
    if row.intervals == [] then None
    else
      var start := Max(0, row.intervals[|row.intervals| - 1].until - OVERLAP);
      if start >= since then None else Some(Interval(start, since - 1))
  }

  function CatchUpIn(since: int): Wanted {
    (row: Row) => var range := CatchUpRange(row, since);
      if range.None? then [] else [range.value]
  }

  method CatchUpJobs(records: seq<AccountRows>, since: int) returns (jobs: seq<Filter>)
    ensures jobs == Combined(ByKind(Singles(records, CatchUpIn(since))))
  {
    var catchups: seq<Filter> := [];
    for i := 0 to |records|
      invariant catchups == ByKind(Singles(records[..i], CatchUpIn(since)))
    {
      assert records[..i + 1][..i] == records[..i];
      catchups := AddCatchUps(catchups, records[i], since, Singles(records[..i], CatchUpIn(since)));
    }
    assert records[..|records|] == records;
    jobs := CombineJobs(catchups);
  }

  method AddCatchUps(entries: seq<Filter>, account: AccountRows, since: int, ghost seen: seq<Filter>) returns (catchups: seq<Filter>)
    requires entries == ByKind(seen)
    ensures catchups == ByKind(seen + RowSingles(account.pubkey, account.rows, CatchUpIn(since)))
  {
    NoRowSingles(account.pubkey, account.rows, since, seen);
    hide RowSingles, ByKind, AddAuthor, CatchUpIn;
    catchups := entries;
    for j := 0 to |account.rows|
      invariant catchups == ByKind(seen + RowSingles(account.pubkey, account.rows[..j], CatchUpIn(since)))
    {
      var row := account.rows[j];
      CatchUpStep(seen, account.pubkey, account.rows, j, since);
      if row.intervals == [] { continue; }
      var start := Max(0, row.intervals[|row.intervals| - 1].until - OVERLAP);
      if start >= since { continue; }
      catchups := AddAuthor(catchups, Single(account.pubkey, row.kind, Interval(start, since - 1)));
    }
    assert account.rows[..|account.rows|] == account.rows;
  }

  lemma NoRowSingles(pubkey: nat, rows: seq<Row>, since: int, seen: seq<Filter>)
    ensures seen + RowSingles(pubkey, rows[..0], CatchUpIn(since)) == seen
  {
    assert seen + [] == seen;
  }

  lemma AddedSingle(before: seq<Filter>, pubkey: nat, kind: nat, ranges: seq<Interval>)
    requires |ranges| <= 1
    ensures ByKind(before + RangeSingles(pubkey, kind, ranges))
         == if ranges == [] then ByKind(before) else AddAuthor(ByKind(before), Single(pubkey, kind, ranges[0]))
  {
    if ranges == [] {
      assert before + RangeSingles(pubkey, kind, ranges) == before;
    } else {
      assert RangeSingles(pubkey, kind, ranges) == [Single(pubkey, kind, ranges[0])];
      assert (before + [Single(pubkey, kind, ranges[0])])[..|before|] == before;
    }
  }

  lemma CatchUpStep(seen: seq<Filter>, pubkey: nat, rows: seq<Row>, j: nat, since: int)
    requires j < |rows|
    ensures var before := ByKind(seen + RowSingles(pubkey, rows[..j], CatchUpIn(since)));
            var range := CatchUpRange(rows[j], since);
            ByKind(seen + RowSingles(pubkey, rows[..j + 1], CatchUpIn(since)))
            == if range.None? then before else AddAuthor(before, Single(pubkey, rows[j].kind, range.value))
  {
    RowSinglesStep(seen, pubkey, rows, j, CatchUpIn(since));
    AddedSingle(seen + RowSingles(pubkey, rows[..j], CatchUpIn(since)), pubkey, rows[j].kind, CatchUpIn(since)(rows[j]));
  }

  lemma CatchUpIsGood(records: seq<AccountRows>, since: int)
    requires DistinctAccounts(records)
    ensures GoodRecords(records, CatchUpIn(since))
  {
    forall i, j | 0 <= i < |records| && 0 <= j < |records[i].rows|
      ensures DisjointRanges(CatchUpIn(since)(records[i].rows[j]))
    {
    }
  }

  /** The catch-up jobs read each second of each row's catch-up range exactly once. */
  lemma CatchUpTiles(records: seq<AccountRows>, since: int, c: Cell)
    requires DistinctAccounts(records)
    ensures var jobs := Combined(ByKind(Singles(records, CatchUpIn(since))));
            && AllWellFormed(jobs)
            && Hits(jobs, c) == if WantedCell(records, CatchUpIn(since), c) then 1 else 0
  {
    CatchUpIsGood(records, since);
    WantedTiled(records, CatchUpIn(since));
  }

  /**
   * After the initial phase, a row that was covered up to an edge no later than the snapshot end
   * has one interval reaching from that edge to the snapshot end. `after` is whatever the row covers then:
   * at least its old intervals, the recent window and the completed catch-up jobs.
   */
  lemma CatchUpContiguous(records: seq<AccountRows>, since: int, until: int, i: nat, j: nat, after: seq<Interval>)
    requires DistinctAccounts(records) && i < |records| && j < |records[i].rows|
    requires records[i].rows[j].intervals != []
    requires 0 <= records[i].rows[j].intervals[|records[i].rows[j].intervals| - 1].until <= until
    requires NormalForm(after)
    requires var row := records[i].rows[j];
             var jobs := Combined(ByKind(Singles(records, CatchUpIn(since))));
             forall t | Covers(row.intervals + [Interval(since, until)] + SpansFor(jobs, records[i].pubkey, row.kind), t) :: Covers(after, t)
    ensures var edge := records[i].rows[j].intervals[|records[i].rows[j].intervals| - 1].until;
            exists m | 0 <= m < |after| :: after[m].since <= edge && until <= after[m].until
  {
    var row := records[i].rows[j];
    var author := records[i].pubkey;
    var jobs := Combined(ByKind(Singles(records, CatchUpIn(since))));
    var spans := SpansFor(jobs, author, row.kind);
    var edge := row.intervals[|row.intervals| - 1].until;
    var recent := Interval(since, until);
    forall t | edge <= t <= until ensures Covers(after, t) {
      CoversSplit(row.intervals + [recent], spans, t);
      CoversSplit(row.intervals, [recent], t);
      if t < since {
        var c := Cell(author, row.kind, t);
        var ranges := CatchUpIn(since)(row);
        assert Contains(ranges[0], t);
        assert WantedInRows(records[i].rows, CatchUpIn(since), c);
        CatchUpTiles(records, since, c);
        SpansCover(jobs, author, row.kind, t);
      }
    }
    RunInOneInterval(after, edge, until);
  }
}
