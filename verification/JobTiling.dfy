/** The jobs read exactly the missing cells, each once; and marking them leaves nothing missing. */
module JobTiling {
  import opened Basics
  import opened Sorting
  import opened Intervals
  import opened Pages
  import opened Jobs

  ghost predicate AllWellFormed(fs: seq<Filter>) {
    forall i | 0 <= i < |fs| :: WellFormed(fs[i])
  }

  /** No cell is read twice. */
  ghost predicate Disjoint(fs: seq<Filter>) {
    forall c :: Hits(fs, c) <= 1
  }

  ghost predicate SameHits(a: seq<Filter>, b: seq<Filter>) {
    forall c :: Hits(a, c) == Hits(b, c)
  }

  /** A range wanted by some row of the cell's account and kind contains its second. */
  ghost predicate WantedCell(records: seq<AccountRows>, wanted: Wanted, c: Cell) {
    exists i | 0 <= i < |records| :: records[i].pubkey == c.author && WantedInRows(records[i].rows, wanted, c)
  }

  ghost predicate WantedInRows(rows: seq<Row>, wanted: Wanted, c: Cell) {
    exists j | 0 <= j < |rows| :: rows[j].kind == c.kind && Covers(wanted(rows[j]), c.second)
  }

  ghost predicate DisjointRanges(rs: seq<Interval>) {
    AllValid(rs) && forall i, j | 0 <= i < j < |rs| :: rs[j].until < rs[i].since
  }

  ghost predicate GoodRows(rows: seq<Row>, wanted: Wanted) {
    DistinctKinds(rows) && forall j | 0 <= j < |rows| :: DisjointRanges(wanted(rows[j]))
  }

  ghost predicate GoodRecords(records: seq<AccountRows>, wanted: Wanted) {
    DistinctAccounts(records) && forall i | 0 <= i < |records| :: GoodRows(records[i].rows, wanted)
  }

  // ---- counting ----

  lemma {:induction false} HitsSome(fs: seq<Filter>, i: nat, c: Cell)
    requires i < |fs| && InBox(c, fs[i])
    ensures Hits(fs, c) >= 1
  {
    if i > 0 { HitsSome(fs[1..], i - 1, c); }
  }

  lemma {:induction false} HitsPositive(fs: seq<Filter>, c: Cell)
    requires Hits(fs, c) >= 1
    ensures exists i | 0 <= i < |fs| :: InBox(c, fs[i])
  {
    if !InBox(c, fs[0]) {
      HitsPositive(fs[1..], c);
      var i :| 0 <= i < |fs[1..]| && InBox(c, fs[1..][i]);
      assert InBox(c, fs[i + 1]);
    }
  }

  lemma RemoveFirst<T>(a: seq<T>, b: seq<T>, i: nat)
    requires a != [] && i < |b| && b[i] == a[0] && multiset(a) == multiset(b)
    ensures multiset(a[1..]) == multiset(b[..i] + b[i + 1..])
  {
    assert a == [a[0]] + a[1..];
    assert b == b[..i] + [b[i]] + b[i + 1..];
    assert multiset(a) == multiset{a[0]} + multiset(a[1..]);
    assert multiset(a) - multiset{a[0]} == multiset(a[1..]);
    assert multiset(b) - multiset{a[0]} == multiset(b[..i]) + multiset(b[i + 1..]);
  }

  lemma {:induction false} HitsPermuted(a: seq<Filter>, b: seq<Filter>, c: Cell)
    requires multiset(a) == multiset(b)
    ensures Hits(a, c) == Hits(b, c)
  {
    if a == [] {
      assert |multiset(a)| == 0 && |multiset(b)| == |b|;
    } else {
      assert a[0] in multiset(b);
      var i :| 0 <= i < |b| && b[i] == a[0];
      RemoveFirst(a, b, i);
      HitsPermuted(a[1..], b[..i] + b[i + 1..], c);
      assert b == b[..i] + [b[i]] + b[i + 1..];
      HitsAround(b[..i], [b[i]], b[i + 1..], c);
      HitsConcat(b[..i], b[i + 1..], c);
      HitsOfFew(b[i], b[i], c);
    }
  }

  // ---- the singles ----

  lemma {:induction false} RangeSinglesHits(author: nat, kind: nat, ranges: seq<Interval>, c: Cell)
    requires DisjointRanges(ranges)
    ensures AllWellFormed(RangeSingles(author, kind, ranges))
    ensures Hits(RangeSingles(author, kind, ranges), c) == if c.author == author && c.kind == kind && Covers(ranges, c.second) then 1 else 0
  {
    if ranges != [] {
      var r, rest := ranges[0], ranges[1..];
      assert RangeSingles(author, kind, ranges) == [Single(author, kind, r)] + RangeSingles(author, kind, rest);
      HeadDisjoint(ranges, c.second);
      SingleHits(author, kind, r, c);
      hide DisjointRanges, RangeSingles, Single, Covers, Hits;
      RangeSinglesHits(author, kind, rest, c);
      HitsConcat([Single(author, kind, r)], RangeSingles(author, kind, rest), c);
    }
  }

  lemma SingleHits(author: nat, kind: nat, r: Interval, c: Cell)
    requires r.since <= r.until
    ensures WellFormed(Single(author, kind, r))
    ensures Hits([Single(author, kind, r)], c) == if c.author == author && c.kind == kind && Contains(r, c.second) then 1 else 0
  {
    HitsOfFew(Single(author, kind, r), Single(author, kind, r), c);
  }

  lemma HeadDisjoint(ranges: seq<Interval>, t: int)
    requires DisjointRanges(ranges) && ranges != []
    ensures DisjointRanges(ranges[1..]) && ranges[0].since <= ranges[0].until
    ensures Covers(ranges, t) <==> Contains(ranges[0], t) || Covers(ranges[1..], t)
    ensures !(Contains(ranges[0], t) && Covers(ranges[1..], t))
  {
    assert ranges == [ranges[0]] + ranges[1..];
    CoversSplit([ranges[0]], ranges[1..], t);
    assert [ranges[0]][0] == ranges[0];
    forall i | 0 <= i < |ranges[1..]| ensures ranges[1..][i] == ranges[i + 1] { }
  }

  lemma {:induction false} RowSinglesHits(author: nat, rows: seq<Row>, wanted: Wanted, c: Cell)
    requires GoodRows(rows, wanted)
    ensures AllWellFormed(RowSingles(author, rows, wanted))
    ensures Hits(RowSingles(author, rows, wanted), c) == if c.author == author && WantedInRows(rows, wanted, c) then 1 else 0
  {
    if rows != [] {
      var n := |rows| - 1;
      RowSinglesHits(author, rows[..n], wanted, c);
      RangeSinglesHits(author, rows[n].kind, wanted(rows[n]), c);
      HitsConcat(RowSingles(author, rows[..n], wanted), RangeSingles(author, rows[n].kind, wanted(rows[n])), c);
      assert WantedInRows(rows, wanted, c) <==>
             WantedInRows(rows[..n], wanted, c) || (rows[n].kind == c.kind && Covers(wanted(rows[n]), c.second)) by {
        if WantedInRows(rows[..n], wanted, c) {
          var j :| 0 <= j < n && rows[..n][j].kind == c.kind && Covers(wanted(rows[..n][j]), c.second);
          assert rows[j].kind == c.kind && Covers(wanted(rows[j]), c.second);
        }
        if WantedInRows(rows, wanted, c) {
          var j :| 0 <= j < |rows| && rows[j].kind == c.kind && Covers(wanted(rows[j]), c.second);
          if j < n { assert rows[..n][j].kind == c.kind; }
        }
      }
    }
  }

  lemma {:induction false} SinglesHits(records: seq<AccountRows>, wanted: Wanted, c: Cell)
    requires GoodRecords(records, wanted)
    ensures AllWellFormed(Singles(records, wanted))
    ensures Hits(Singles(records, wanted), c) == if WantedCell(records, wanted, c) then 1 else 0
  {
    if records != [] {
      var n := |records| - 1;
      var last := records[n];
      SinglesHits(records[..n], wanted, c);
      RowSinglesHits(last.pubkey, last.rows, wanted, c);
      HitsConcat(Singles(records[..n], wanted), RowSingles(last.pubkey, last.rows, wanted), c);
      assert WantedCell(records, wanted, c) <==>
             WantedCell(records[..n], wanted, c) || (last.pubkey == c.author && WantedInRows(last.rows, wanted, c)) by {
        if WantedCell(records[..n], wanted, c) {
          var j :| 0 <= j < n && records[..n][j].pubkey == c.author && WantedInRows(records[..n][j].rows, wanted, c);
          assert records[j].pubkey == c.author;
        }
        if WantedCell(records, wanted, c) {
          var j :| 0 <= j < |records| && records[j].pubkey == c.author && WantedInRows(records[j].rows, wanted, c);
          if j < n { assert records[..n][j].pubkey == c.author; }
        }
      }
    }
  }

  // ---- grouping ----

  /** Merging two rectangles that share range and kinds, when they share no cell. */
  lemma UniteAuthors(e: Filter, x: Filter)
    requires WellFormed(e) && WellFormed(x) && SameRange(e, x) && e.kinds == x.kinds
    requires forall c :: !(InBox(c, e) && InBox(c, x))
    ensures var u := e.(authors := e.authors + x.authors);
            WellFormed(u) && forall c :: InBox(c, u) <==> InBox(c, e) || InBox(c, x)
  {
    forall i, j | 0 <= i < |e.authors| && 0 <= j < |x.authors| ensures e.authors[i] != x.authors[j] {
      assert !(InBox(Cell(e.authors[i], e.kinds[0], e.since), e) && InBox(Cell(e.authors[i], e.kinds[0], e.since), x));
    }
  }

  lemma UniteKinds(e: Filter, x: Filter)
    requires WellFormed(e) && WellFormed(x) && SameRange(e, x) && e.authors == x.authors
    requires forall c :: !(InBox(c, e) && InBox(c, x))
    ensures var u := e.(kinds := e.kinds + x.kinds);
            WellFormed(u) && forall c :: InBox(c, u) <==> InBox(c, e) || InBox(c, x)
  {
    forall i, j | 0 <= i < |e.kinds| && 0 <= j < |x.kinds| ensures e.kinds[i] != x.kinds[j] {
      assert !(InBox(Cell(e.authors[0], e.kinds[i], e.since), e) && InBox(Cell(e.authors[0], e.kinds[i], e.since), x));
    }
  }

  lemma HeadApart(es: seq<Filter>, x: Filter)
    requires es != [] && Disjoint(es + [x])
    ensures forall c :: !(InBox(c, es[0]) && InBox(c, x))
    ensures Disjoint(es[1..] + [x])
  {
    forall c
      ensures !(InBox(c, es[0]) && InBox(c, x))
      ensures Hits(es[1..] + [x], c) <= 1
    {
      assert Hits(es + [x], c) <= 1;
      HitsConcat(es, [x], c);
      HitsConcat(es[1..], [x], c);
      HitsOfFew(x, x, c);
    }
  }

  lemma {:induction false} AddAuthorHits(es: seq<Filter>, x: Filter)
    requires AllWellFormed(es) && WellFormed(x) && Disjoint(es + [x])
    ensures AllWellFormed(AddAuthor(es, x)) && SameHits(AddAuthor(es, x), es + [x])
  {
    if es == [] {
      assert es + [x] == [x];
    } else {
      HeadApart(es, x);
      assert (es + [x])[1..] == es[1..] + [x];
      if SameRange(es[0], x) && es[0].kinds == x.kinds {
        UniteAuthors(es[0], x);
        var u := es[0].(authors := es[0].authors + x.authors);
        assert ([u] + es[1..])[1..] == es[1..];
        forall c ensures Hits([u] + es[1..], c) == Hits(es + [x], c) {
          HitsConcat(es[1..], [x], c);
          HitsOfFew(x, x, c);
        }
      } else {
        AddAuthorHits(es[1..], x);
        assert AddAuthor(es, x)[1..] == AddAuthor(es[1..], x);
      }
    }
  }

  lemma {:induction false} AddKindsHits(es: seq<Filter>, x: Filter)
    requires AllWellFormed(es) && WellFormed(x) && Disjoint(es + [x])
    ensures AllWellFormed(AddKinds(es, x)) && SameHits(AddKinds(es, x), es + [x])
  {
    if es == [] {
      assert es + [x] == [x];
    } else {
      HeadApart(es, x);
      assert (es + [x])[1..] == es[1..] + [x];
      if SameRange(es[0], x) && es[0].authors == x.authors {
        UniteKinds(es[0], x);
        var u := es[0].(kinds := es[0].kinds + x.kinds);
        assert ([u] + es[1..])[1..] == es[1..];
        forall c ensures Hits([u] + es[1..], c) == Hits(es + [x], c) {
          HitsConcat(es[1..], [x], c);
          HitsOfFew(x, x, c);
        }
      } else {
        AddKindsHits(es[1..], x);
        assert AddKinds(es, x)[1..] == AddKinds(es[1..], x);
      }
    }
  }

  lemma PrefixDisjoint(fs: seq<Filter>)
    requires fs != [] && Disjoint(fs)
    ensures Disjoint(fs[..|fs| - 1])
    ensures forall c :: Hits(fs, c) == Hits(fs[..|fs| - 1], c) + Hits([fs[|fs| - 1]], c)
  {
    var n := |fs| - 1;
    assert fs == fs[..n] + [fs[n]];
    forall c ensures Hits(fs, c) == Hits(fs[..n], c) + Hits([fs[n]], c) && Hits(fs[..n], c) <= 1 {
      HitsConcat(fs[..n], [fs[n]], c);
      assert Hits(fs, c) <= 1;
    }
  }

  lemma SameHitsExtended(a: seq<Filter>, b: seq<Filter>, x: Filter, y: Filter)
    requires SameHits(a, b) && forall c :: InBox(c, x) <==> InBox(c, y)
    ensures SameHits(a + [x], b + [y])
  {
    forall c ensures Hits(a + [x], c) == Hits(b + [y], c) {
      HitsConcat(a, [x], c);
      HitsConcat(b, [y], c);
      HitsOfFew(x, x, c);
      HitsOfFew(y, y, c);
    }
  }

  lemma {:induction false} ByKindHits(singles: seq<Filter>)
    requires AllWellFormed(singles) && Disjoint(singles)
    ensures AllWellFormed(ByKind(singles)) && SameHits(ByKind(singles), singles)
  {
    if singles != [] {
      var n := |singles| - 1;
      var x := singles[n];
      PrefixDisjoint(singles);
      ByKindHits(singles[..n]);
      SameHitsExtended(ByKind(singles[..n]), singles[..n], x, x);
      assert singles[..n] + [x] == singles;
      assert Disjoint(ByKind(singles[..n]) + [x]);
      AddAuthorHits(ByKind(singles[..n]), x);
    }
  }

  lemma SortAuthorsKeeps(job: Filter)
    requires WellFormed(job)
    ensures WellFormed(SortAuthors(job)) && forall c :: InBox(c, SortAuthors(job)) <==> InBox(c, job)
  {
    SortByIsSorted(job.authors, Number);
    PermutedNoDup(job.authors, SortBy(job.authors, Number));
  }

  lemma {:induction false} GroupedHits(jobs: seq<Filter>)
    requires AllWellFormed(jobs) && Disjoint(jobs)
    ensures AllWellFormed(Grouped(jobs)) && SameHits(Grouped(jobs), jobs)
  {
    if jobs != [] {
      var n := |jobs| - 1;
      var x := SortAuthors(jobs[n]);
      SortAuthorsKeeps(jobs[n]);
      PrefixDisjoint(jobs);
      GroupedHits(jobs[..n]);
      SameHitsExtended(Grouped(jobs[..n]), jobs[..n], x, jobs[n]);
      assert jobs[..n] + [jobs[n]] == jobs;
      assert Disjoint(Grouped(jobs[..n]) + [x]);
      AddKindsHits(Grouped(jobs[..n]), x);
    }
  }

  // ---- slicing ----

  lemma {:induction false} DedupKeeps(items: seq<nat>)
    requires NoDup(items)
    ensures Dedup(items) == items
  {
    if items != [] {
      var n := |items| - 1;
      DedupKeeps(items[..n]);
      assert items == items[..n] + [items[n]];
    }
  }

  lemma {:induction false} GroupsHits(job: Filter, kinds: seq<nat>)
    requires WellFormed(job) && NoDup(kinds)
    ensures var fs := WithKinds(job, GroupsOf(kinds, MAX_KINDS));
            && AllWellFormed(fs)
            && (forall i | 0 <= i < |fs| :: |fs[i].kinds| <= MAX_KINDS)
            && forall c :: Hits(fs, c) == if InBox(c, job.(kinds := kinds)) then 1 else 0
    decreases |kinds|
  {
    var fs := WithKinds(job, GroupsOf(kinds, MAX_KINDS));
    if |kinds| <= MAX_KINDS {
      if kinds != [] {
        assert fs == [job.(kinds := kinds)];
        forall c ensures Hits(fs, c) == if InBox(c, job.(kinds := kinds)) then 1 else 0 {
          HitsOfFew(job.(kinds := kinds), job, c);
        }
      }
    } else {
      var head, tail := kinds[..MAX_KINDS], kinds[MAX_KINDS..];
      assert kinds == head + tail;
      GroupsHits(job, tail);
      assert fs[1..] == WithKinds(job, GroupsOf(tail, MAX_KINDS));
      assert fs[0] == job.(kinds := head);
      assert forall i | 1 <= i < |fs| :: fs[i] == fs[1..][i - 1];
      forall c ensures Hits(fs, c) == if InBox(c, job.(kinds := kinds)) then 1 else 0 {
        assert c.kind in kinds <==> c.kind in head || c.kind in tail;
        assert !(c.kind in head && c.kind in tail);
      }
    }
  }

  lemma {:induction false} SlicedHits(groups: seq<Filter>)
    requires AllWellFormed(groups)
    ensures AllWellFormed(Sliced(groups)) && SameHits(Sliced(groups), groups)
    ensures forall i | 0 <= i < |Sliced(groups)| :: |Sliced(groups)[i].kinds| <= MAX_KINDS
  {
    if groups != [] {
      var n := |groups| - 1;
      var g := groups[n];
      SlicedHits(groups[..n]);
      DedupKeeps(g.kinds);
      GroupsHits(g, g.kinds);
      assert g.(kinds := g.kinds) == g;
      assert groups == groups[..n] + [g];
      forall c ensures Hits(Sliced(groups), c) == Hits(groups, c) {
        HitsConcat(Sliced(groups[..n]), WithKinds(g, GroupsOf(g.kinds, MAX_KINDS)), c);
        HitsConcat(groups[..n], [g], c);
        HitsOfFew(g, g, c);
      }
    }
  }

  /** Combining reads exactly the same cells, in well-formed filters of at most 30 kinds, newest bounds first. */
  lemma CombinedTiles(jobs: seq<Filter>)
    requires AllWellFormed(jobs) && Disjoint(jobs)
    ensures AllWellFormed(Combined(jobs)) && SameHits(Combined(jobs), jobs)
    ensures forall i | 0 <= i < |Combined(jobs)| :: |Combined(jobs)[i].kinds| <= MAX_KINDS
    ensures forall i, j | 0 <= i < j < |Combined(jobs)| :: Combined(jobs)[j].until <= Combined(jobs)[i].until
  {
    var sliced := Sliced(Grouped(jobs));
    GroupedHits(jobs);
    SlicedHits(Grouped(jobs));
    hide Sliced, Grouped, WellFormed, Disjoint;
    SortedKeeps(sliced);
    hide SortBy;
  }

  lemma SortedKeeps(fs: seq<Filter>)
    ensures var r := SortBy(fs, Oldness);
            && SameHits(r, fs) && (AllWellFormed(fs) ==> AllWellFormed(r))
            && ((forall i | 0 <= i < |fs| :: |fs[i].kinds| <= MAX_KINDS) ==> forall i | 0 <= i < |r| :: |r[i].kinds| <= MAX_KINDS)
            && forall i, j | 0 <= i < j < |r| :: r[j].until <= r[i].until
  {
    var r := SortBy(fs, Oldness);
    SortByIsSorted(fs, Oldness);
    hide SortBy, Hits, WellFormed;
    forall c ensures Hits(r, c) == Hits(fs, c) { HitsPermuted(r, fs, c); }
    forall i | 0 <= i < |r| ensures r[i] in fs { assert r[i] in r; }
    forall i, j | 0 <= i < j < |r| ensures r[j].until <= r[i].until {
      assert Oldness(r[i]) <= Oldness(r[j]);
    }
  }

  /** The whole pipeline: each wanted cell is read by exactly one job, no other cell by any. */
  lemma WantedTiled(records: seq<AccountRows>, wanted: Wanted)
    requires GoodRecords(records, wanted)
    ensures var jobs := Combined(ByKind(Singles(records, wanted)));
            && AllWellFormed(jobs)
            && (forall c :: Hits(jobs, c) == if WantedCell(records, wanted, c) then 1 else 0)
            && (forall i | 0 <= i < |jobs| :: |jobs[i].kinds| <= MAX_KINDS)
            && forall i, j | 0 <= i < j < |jobs| :: jobs[j].until <= jobs[i].until
  {
    var singles := Singles(records, wanted);
    forall c ensures Hits(singles, c) == if WantedCell(records, wanted, c) then 1 else 0 {
      SinglesHits(records, wanted, c);
    }
    SinglesHits(records, wanted, Cell(0, 0, 0));
    assert Disjoint(singles);
    ByKindHits(singles);
    assert Disjoint(ByKind(singles));
    CombinedTiles(ByKind(singles));
    forall c ensures Hits(Combined(ByKind(singles)), c) == if WantedCell(records, wanted, c) then 1 else 0 {
      assert Hits(ByKind(singles), c) == Hits(singles, c);
    }
  }

  /** A cell of a known row, inside its bounds, whose second no interval of the row covers. */
  ghost predicate MissingCell(records: seq<AccountRows>, boundsFor: Row -> Option<Interval>, c: Cell) {
    exists i, j | 0 <= i < |records| && 0 <= j < |records[i].rows| ::
      var row := records[i].rows[j];
      && records[i].pubkey == c.author && row.kind == c.kind
      && boundsFor(row).Some? && Contains(boundsFor(row).value, c.second)
      && !Covers(row.intervals, c.second)
  }

  lemma MissingIsGood(records: seq<AccountRows>, boundsFor: Row -> Option<Interval>)
    requires DistinctAccounts(records)
    ensures GoodRecords(records, MissingIn(boundsFor))
    ensures forall c :: WantedCell(records, MissingIn(boundsFor), c) <==> MissingCell(records, boundsFor, c)
  {
    var wanted := MissingIn(boundsFor);
    forall i, j | 0 <= i < |records| && 0 <= j < |records[i].rows|
      ensures DisjointRanges(wanted(records[i].rows[j]))
      ensures forall t :: Covers(wanted(records[i].rows[j]), t) <==>
                var b := boundsFor(records[i].rows[j]);
                b.Some? && Contains(b.value, t) && !Covers(records[i].rows[j].intervals, t)
    {
      var row := records[i].rows[j];
      var b := boundsFor(row);
      if b.Some? { MissingExact(row.intervals, b.value.since, b.value.until); }
    }
    forall c ensures WantedCell(records, wanted, c) <==> MissingCell(records, boundsFor, c) {
      if WantedCell(records, wanted, c) {
        var i :| 0 <= i < |records| && records[i].pubkey == c.author && WantedInRows(records[i].rows, wanted, c);
        var j :| 0 <= j < |records[i].rows| && records[i].rows[j].kind == c.kind && Covers(wanted(records[i].rows[j]), c.second);
      }
      if MissingCell(records, boundsFor, c) {
        var i, j :| 0 <= i < |records| && 0 <= j < |records[i].rows| &&
          records[i].pubkey == c.author && records[i].rows[j].kind == c.kind
          && boundsFor(records[i].rows[j]).Some? && Contains(boundsFor(records[i].rows[j]).value, c.second)
          && !Covers(records[i].rows[j].intervals, c.second);
        assert WantedInRows(records[i].rows, wanted, c);
      }
    }
  }

  /** Backfill jobs cover every missing (author, kind, second) cell exactly once, and nothing else. */
  lemma BackfillTiles(records: seq<AccountRows>, boundsFor: Row -> Option<Interval>, c: Cell)
    requires DistinctAccounts(records)
    ensures var jobs := Combined(ByKind(Singles(records, MissingIn(boundsFor))));
            && AllWellFormed(jobs)
            && Hits(jobs, c) == (if MissingCell(records, boundsFor, c) then 1 else 0)
            && (forall i | 0 <= i < |jobs| :: |jobs[i].kinds| <= MAX_KINDS)
            && forall i, j | 0 <= i < j < |jobs| :: jobs[j].until <= jobs[i].until
  {
    MissingIsGood(records, boundsFor);
    WantedTiled(records, MissingIn(boundsFor));
  }

  // ---- marking the jobs ----

  /** The ranges that completed jobs claim for one account and kind. */
  function SpansFor(jobs: seq<Filter>, author: nat, kind: nat): seq<Interval> {
    if jobs == [] then []
    else (if author in jobs[0].authors && kind in jobs[0].kinds then [Interval(jobs[0].since, jobs[0].until)] else [])
         + SpansFor(jobs[1..], author, kind)
  }

  lemma {:induction false} SpansCover(jobs: seq<Filter>, author: nat, kind: nat, t: int)
    ensures Covers(SpansFor(jobs, author, kind), t) <==> Hits(jobs, Cell(author, kind, t)) >= 1
    ensures AllWellFormed(jobs) ==> AllValid(SpansFor(jobs, author, kind))
  {
    if jobs != [] {
      SpansCover(jobs[1..], author, kind, t);
      var head := if author in jobs[0].authors && kind in jobs[0].kinds then [Interval(jobs[0].since, jobs[0].until)] else [];
      CoversSplit(head, SpansFor(jobs[1..], author, kind), t);
      assert AllWellFormed(jobs) ==> AllWellFormed(jobs[1..]);
    }
  }
}
