/** From jobs to committed coverage: reading every job to its end and committing what the reads confirmed. */
module Scans {
  import opened Basics
  import opened Intervals
  import opened Pages
  import opened Jobs
  import opened JobTiling
  import opened CatchUp
  import opened CoverageStore
  import opened CoverageLaws
  import Sync

  /** Every job was read to its end: the rectangles its read confirmed partition it. */
  ghost predicate Completed(jobs: seq<Filter>, pages: seq<seq<Filter>>) {
    |pages| == |jobs| && forall k | 0 <= k < |jobs| :: Tiles(pages[k], jobs[k]) && AllWellFormed(pages[k])
  }

  function Flat(pages: seq<seq<Filter>>): seq<Filter> {
    if pages == [] then [] else pages[0] + Flat(pages[1..])
  }

  lemma {:induction false} FlatHits(jobs: seq<Filter>, pages: seq<seq<Filter>>)
    requires Completed(jobs, pages)
    ensures AllWellFormed(Flat(pages)) && SameHits(Flat(pages), jobs)
  {
    if jobs != [] {
      assert Completed(jobs[1..], pages[1..]);
      FlatHits(jobs[1..], pages[1..]);
      forall c ensures Hits(Flat(pages), c) == Hits(jobs, c) { HitsConcat(pages[0], Flat(pages[1..]), c); }
    }
  }

  /** What `checkpoint` queues for one account when a rectangle was confirmed. */
  function RequestOf(relay: string, generation: nat, f: Filter): Request {
    Request(Sync.RefsFor(relay, f.kinds, generation), Interval(f.since, f.until), false)
  }

  function Checkpointed(relay: string, generation: nat, author: nat, fs: seq<Filter>): seq<Request> {
    if fs == [] then []
    else (if author in fs[0].authors then [RequestOf(relay, generation, fs[0])] else []) + Checkpointed(relay, generation, author, fs[1..])
  }

  lemma {:induction false} CheckpointedMember(relay: string, generation: nat, author: nat, fs: seq<Filter>, r: Request)
    ensures r in Checkpointed(relay, generation, author, fs) <==>
              exists i | 0 <= i < |fs| :: author in fs[i].authors && r == RequestOf(relay, generation, fs[i])
  {
    hide RequestOf;
    if fs != [] {
      CheckpointedMember(relay, generation, author, fs[1..], r);
      if i :| 0 <= i < |fs| && author in fs[i].authors && r == RequestOf(relay, generation, fs[i]) {
        if i > 0 { assert fs[1..][i - 1] == fs[i]; }
      }
      if i :| 0 <= i < |fs[1..]| && author in fs[1..][i].authors && r == RequestOf(relay, generation, fs[1..][i]) {
        assert fs[i + 1] == fs[1..][i];
      }
    }
  }

  lemma {:induction false} HitsMember(fs: seq<Filter>, c: Cell)
    ensures Hits(fs, c) >= 1 <==> exists i | 0 <= i < |fs| :: InBox(c, fs[i])
  {
    hide InBox;
    if fs != [] {
      HitsMember(fs[1..], c);
      if i :| 0 <= i < |fs| && InBox(c, fs[i]) {
        if i > 0 { assert fs[1..][i - 1] == fs[i]; }
      }
      if i :| 0 <= i < |fs[1..]| && InBox(c, fs[1..][i]) { assert fs[i + 1] == fs[1..][i]; }
    }
  }

  lemma RefMember(relay: string, generation: nat, f: Filter, ref: Ref)
    ensures ref in Sync.RefsFor(relay, f.kinds, generation) <==> ref.key.relay == relay && ref.generation == generation && ref.key.kind in f.kinds
  {
    var refs := Sync.RefsFor(relay, f.kinds, generation);
    if ref.key.relay == relay && ref.generation == generation && ref.key.kind in f.kinds {
      var i :| 0 <= i < |f.kinds| && f.kinds[i] == ref.key.kind;
      assert refs[i] == ref;
    }
  }

  /** A mark of the batch stands for a rectangle that was read for the account. */
  ghost predicate MarkOf(relay: string, generation: nat, author: nat, f: Filter, m: Mark) {
    && author in f.authors && m.span == Interval(f.since, f.until)
    && m.ref.key.relay == relay && m.ref.generation == generation && m.ref.key.kind in f.kinds
  }

  lemma BatchMarks(relay: string, generation: nat, author: nat, fs: seq<Filter>, m: Mark)
    ensures m in Marks(ActiveOf(Checkpointed(relay, generation, author, fs))) <==>
              exists i | 0 <= i < |fs| :: MarkOf(relay, generation, author, fs[i], m)
  {
    var requests := Checkpointed(relay, generation, author, fs);
    MarksOfActive(requests, m);
    forall i | 0 <= i < |fs| ensures MarkOf(relay, generation, author, fs[i], m) <==>
        author in fs[i].authors && m.span == RequestOf(relay, generation, fs[i]).span && m.ref in RequestOf(relay, generation, fs[i]).refs
    {
      RefMember(relay, generation, fs[i], m.ref);
    }
    hide MarkOf, Marks, ActiveOf, Checkpointed;
    if r :| r in requests && !r.aborted && m.span == r.span && m.ref in r.refs {
      CheckpointedMember(relay, generation, author, fs, r);
    }
    if i :| 0 <= i < |fs| && MarkOf(relay, generation, author, fs[i], m) {
      CheckpointedMember(relay, generation, author, fs, RequestOf(relay, generation, fs[i]));
    }
  }

  /** What was read for an account is inside the range of seconds and of records that are current in its store. */
  ghost predicate Committable(db: Db, relay: string, generation: nat, author: nat, fs: seq<Filter>) {
    forall c | Hits(fs, c) >= 1 && c.author == author ::
      0 <= c.second <= MAX_SAFE && RefCurrent(db, Ref(Key(relay, c.kind), generation))
  }

  lemma ReadIsCommittable(db: Db, relay: string, generation: nat, author: nat, fs: seq<Filter>, i: nat)
    requires Committable(db, relay, generation, author, fs) && AllWellFormed(fs) && i < |fs| && author in fs[i].authors
    ensures ValidRange(Interval(fs[i].since, fs[i].until))
    ensures forall kind | kind in fs[i].kinds :: RefCurrent(db, Ref(Key(relay, kind), generation))
  {
    hide RefCurrent;
    forall kind | kind in fs[i].kinds
      ensures RefCurrent(db, Ref(Key(relay, kind), generation)) && ValidRange(Interval(fs[i].since, fs[i].until))
    {
      var first, last := Cell(author, kind, fs[i].since), Cell(author, kind, fs[i].until);
      assert InBox(first, fs[i]) && InBox(last, fs[i]);
      HitsMember(fs, first);
      HitsMember(fs, last);
    }
    assert fs[i].kinds[0] in fs[i].kinds;
  }

  /** Committing the checkpoints of rectangles makes the account's records cover them, and nothing else is added. */
  lemma CommitCovers(db: Db, relay: string, generation: nat, author: nat, fs: seq<Filter>, kind: nat)
    requires NormalDb(db) && AllWellFormed(fs) && Committable(db, relay, generation, author, fs) && Key(relay, kind) in db.records
    ensures var (db', outcome) := MarkBatchOf(db, Checkpointed(relay, generation, author, fs));
            var k := Key(relay, kind);
            && outcome == Committed && k in db'.records && NormalForm(db'.records[k].intervals)
            && forall t :: Covers(db'.records[k].intervals, t) <==>
                             Covers(db.records[k].intervals, t) || Hits(fs, Cell(author, kind, t)) >= 1
  {
    var requests := Checkpointed(relay, generation, author, fs);
    var marks := Marks(ActiveOf(requests));
    BatchCurrent(db, relay, generation, author, fs);
    ActiveMarksValid(requests);
    hide Marks, ActiveOf, Checkpointed, Committable;
    ApplyDenotes(db, marks, Key(relay, kind));
    forall t ensures Claimed(marks, Key(relay, kind), t) <==> Hits(fs, Cell(author, kind, t)) >= 1 {
      ClaimedIsRead(relay, generation, author, fs, kind, t);
    }
  }

  lemma BatchCurrent(db: Db, relay: string, generation: nat, author: nat, fs: seq<Filter>)
    requires AllWellFormed(fs) && Committable(db, relay, generation, author, fs)
    ensures var requests := Checkpointed(relay, generation, author, fs);
            AllRangesValid(requests) && AllCurrent(db, Marks(ActiveOf(requests)))
  {
    var requests := Checkpointed(relay, generation, author, fs);
    hide Marks, ActiveOf, Checkpointed, Committable, RefCurrent, AllWellFormed;
    forall j | 0 <= j < |requests| ensures ValidRange(requests[j].span) {
      CheckpointedMember(relay, generation, author, fs, requests[j]);
      var i :| 0 <= i < |fs| && author in fs[i].authors && requests[j] == RequestOf(relay, generation, fs[i]);
      ReadIsCommittable(db, relay, generation, author, fs, i);
    }
    var marks := Marks(ActiveOf(requests));
    forall j | 0 <= j < |marks| ensures RefCurrent(db, marks[j].ref) {
      assert marks[j] in marks;
      BatchMarks(relay, generation, author, fs, marks[j]);
      var i :| 0 <= i < |fs| && MarkOf(relay, generation, author, fs[i], marks[j]);
      ReadIsCommittable(db, relay, generation, author, fs, i);
      assert marks[j].ref == Ref(Key(relay, marks[j].ref.key.kind), generation);
    }
  }

  lemma ClaimedIsRead(relay: string, generation: nat, author: nat, fs: seq<Filter>, kind: nat, t: int)
    ensures Claimed(Marks(ActiveOf(Checkpointed(relay, generation, author, fs))), Key(relay, kind), t)
       <==> Hits(fs, Cell(author, kind, t)) >= 1
  {
    var marks := Marks(ActiveOf(Checkpointed(relay, generation, author, fs)));
    hide Marks, ActiveOf, Checkpointed;
    HitsMember(fs, Cell(author, kind, t));
    if Claimed(marks, Key(relay, kind), t) {
      var j :| 0 <= j < |marks| && marks[j].ref.key == Key(relay, kind) && Contains(marks[j].span, t);
      assert marks[j] in marks;
      BatchMarks(relay, generation, author, fs, marks[j]);
      var i :| 0 <= i < |fs| && MarkOf(relay, generation, author, fs[i], marks[j]);
      assert InBox(Cell(author, kind, t), fs[i]);
    }
    if i :| 0 <= i < |fs| && InBox(Cell(author, kind, t), fs[i]) {
      var m := Mark(Ref(Key(relay, kind), generation), Interval(fs[i].since, fs[i].until));
      assert MarkOf(relay, generation, author, fs[i], m);
      BatchMarks(relay, generation, author, fs, m);
    }
  }

  /** Reading every job to its end and committing every checkpoint covers the jobs' cells of an account, and nothing else. */
  lemma ScansCover(db: Db, relay: string, generation: nat, author: nat, jobs: seq<Filter>, pages: seq<seq<Filter>>, kind: nat)
    requires NormalDb(db) && Completed(jobs, pages) && Committable(db, relay, generation, author, jobs) && Key(relay, kind) in db.records
    ensures var (db', outcome) := MarkBatchOf(db, Checkpointed(relay, generation, author, Flat(pages)));
            var k := Key(relay, kind);
            && outcome == Committed && k in db'.records && NormalForm(db'.records[k].intervals)
            && forall t :: Covers(db'.records[k].intervals, t) <==>
                             Covers(db.records[k].intervals, t) || Hits(jobs, Cell(author, kind, t)) >= 1
  {
    FlatHits(jobs, pages);
    hide RefCurrent, Completed, Checkpointed, Flat, MarkBatchOf;
    assert Committable(db, relay, generation, author, Flat(pages));
    CommitCovers(db, relay, generation, author, Flat(pages), kind);
  }

  /** The rows that were read from the store: their records are current, and may have grown since. */
  ghost predicate RowsOf(db: Db, relay: string, generation: nat, rows: seq<Row>) {
    forall j | 0 <= j < |rows| ::
      && RefCurrent(db, Ref(Key(relay, rows[j].kind), generation))
      && forall t | Covers(rows[j].intervals, t) :: Covers(db.records[Key(relay, rows[j].kind)].intervals, t)
  }

  // ---- many commits ----

  /** A store over any number of batches, those of scans, of the live feed and of anybody else, committed or refused. */
  ghost predicate Commits(dbs: seq<Db>, batches: seq<seq<Request>>) {
    |dbs| == |batches| + 1 && forall k | 0 <= k < |batches| :: dbs[k + 1] == MarkBatchOf(dbs[k], batches[k]).0
  }

  /** Each of the requests was in some batch that committed. */
  ghost predicate Carried(dbs: seq<Db>, batches: seq<seq<Request>>, requests: seq<Request>)
    requires |dbs| == |batches| + 1
  {
    forall r | r in requests :: exists k | 0 <= k < |batches| :: r in batches[k] && MarkBatchOf(dbs[k], batches[k]).1 == Committed
  }

  /** What no batch takes away: normal form, currency, coverage. */
  ghost predicate Grown(db: Db, db': Db) {
    && NormalDb(db') && db'.records.Keys == db.records.Keys
    && (forall ref :: RefCurrent(db', ref) <==> RefCurrent(db, ref))
    && forall k, t | k in db.records && Covers(db.records[k].intervals, t) :: Covers(db'.records[k].intervals, t)
  }

  lemma BatchGrows(db: Db, requests: seq<Request>)
    requires NormalDb(db)
    ensures Grown(db, MarkBatchOf(db, requests).0)
  {
    hide NormalDb, RefCurrent, Covers;
    if AllRangesValid(requests) && AllCurrent(db, Marks(ActiveOf(requests))) {
      ActiveMarksValid(requests);
      MarksGrow(db, Marks(ActiveOf(requests)));
      hide Grown, ApplyMarks, AllCurrent, Marks, ActiveOf;
    } else {
      SameGrown(db);
    }
  }

  lemma MarksGrow(db: Db, marks: seq<Mark>)
    requires NormalDb(db) && ValidMarks(marks)
    ensures Grown(db, ApplyMarks(db, marks))
  {
    var db' := ApplyMarks(db, marks);
    ApplyKeepsNormal(db, marks);
    forall ref ensures RefCurrent(db', ref) <==> RefCurrent(db, ref) { ApplyKeepsCurrency(db, marks, ref); }
    ApplyKeepsKeys(db, marks);
    hide RefCurrent, NormalDb, NormalForm, ApplyMarks, Covers;
    forall k, t | k in db.records && Covers(db.records[k].intervals, t) ensures Covers(db'.records[k].intervals, t) {
      ApplyDenotes(db, marks, k);
    }
  }

  lemma {:induction false} CommitsGrow(dbs: seq<Db>, batches: seq<seq<Request>>, m: nat, n: nat)
    requires Commits(dbs, batches) && NormalDb(dbs[0]) && m <= n < |dbs|
    ensures NormalDb(dbs[m]) && Grown(dbs[m], dbs[n])
    decreases n
  {
    hide MarkBatchOf, NormalDb, RefCurrent, Covers;
    if n == 0 {
      SameGrown(dbs[0]);
    } else {
      CommitsGrow(dbs, batches, if m < n then m else n - 1, n - 1);
      BatchGrows(dbs[n - 1], batches[n - 1]);
      assert dbs[n - 1 + 1] == MarkBatchOf(dbs[n - 1], batches[n - 1]).0;
      if m == n { SameGrown(dbs[n]); }
    }
  }

  lemma SameGrown(db: Db)
    requires NormalDb(db)
    ensures Grown(db, db)
  {
  }

  /** Rectangles whose checkpoints were committed, in whatever batches, are covered at the end. */
  lemma CarriedCovers(dbs: seq<Db>, batches: seq<seq<Request>>, relay: string, generation: nat, author: nat, fs: seq<Filter>, kind: nat, t: int)
    requires Commits(dbs, batches) && NormalDb(dbs[0]) && Key(relay, kind) in dbs[0].records
    requires Carried(dbs, batches, Checkpointed(relay, generation, author, fs)) && Hits(fs, Cell(author, kind, t)) >= 1
    ensures Key(relay, kind) in dbs[|batches|].records && Covers(dbs[|batches|].records[Key(relay, kind)].intervals, t)
  {
    var key := Key(relay, kind);
    HitsMember(fs, Cell(author, kind, t));
    var i :| 0 <= i < |fs| && InBox(Cell(author, kind, t), fs[i]);
    var r := RequestOf(relay, generation, fs[i]);
    CheckpointedMember(relay, generation, author, fs, r);
    var k :| 0 <= k < |batches| && r in batches[k] && MarkBatchOf(dbs[k], batches[k]).1 == Committed;
    CommitsGrow(dbs, batches, 0, k);
    CommitsGrow(dbs, batches, k + 1, |batches|);
    RefMember(relay, generation, fs[i], Ref(key, generation));
    BatchClaims(dbs[k], batches[k], r, Ref(key, generation), t);
    hide MarkBatchOf, RefCurrent, NormalDb, Checkpointed, Hits;
  }

  lemma BatchClaims(db: Db, requests: seq<Request>, r: Request, ref: Ref, t: int)
    requires NormalDb(db) && ref.key in db.records && MarkBatchOf(db, requests).1 == Committed
    requires r in requests && !r.aborted && ref in r.refs && Contains(r.span, t)
    ensures ref.key in MarkBatchOf(db, requests).0.records && Covers(MarkBatchOf(db, requests).0.records[ref.key].intervals, t)
  {
    var marks := Marks(ActiveOf(requests));
    ActiveMarksValid(requests);
    MarksOfActive(requests, Mark(ref, r.span));
    hide Marks, ActiveOf;
    var i :| 0 <= i < |marks| && marks[i] == Mark(ref, r.span);
    assert Claimed(marks, ref.key, t);
    ApplyDenotes(db, marks, ref.key);
  }

  /** What was read for an account stays committable, whatever else is committed. */
  lemma StillCommittable(db: Db, db': Db, relay: string, generation: nat, author: nat, fs: seq<Filter>)
    requires Committable(db, relay, generation, author, fs) && Grown(db, db')
    ensures Committable(db', relay, generation, author, fs)
  {
    hide RefCurrent, NormalDb, Hits;
  }

  /** A batch of a scan's checkpoints, with any further requests that would commit alone, commits. */
  lemma ScanCommits(db: Db, relay: string, generation: nat, author: nat, fs: seq<Filter>, batch: seq<Request>)
    requires AllWellFormed(fs) && Committable(db, relay, generation, author, fs)
    requires forall r | r in batch :: r in Checkpointed(relay, generation, author, fs) || (ValidRange(r.span) && RefsCurrent(db, r))
    ensures MarkBatchOf(db, batch).1 == Committed
  {
    var own := Checkpointed(relay, generation, author, fs);
    BatchCurrent(db, relay, generation, author, fs);
    BatchCommits(db, own);
    BatchCommits(db, batch);
    hide Marks, ActiveOf, Checkpointed, RefsCurrent, Committable, AllCurrent;
    forall j | 0 <= j < |batch| ensures ValidRange(batch[j].span) {
      assert batch[j] in batch;
      if batch[j] in own {
        var i :| 0 <= i < |own| && own[i] == batch[j];
      }
    }
  }

  /** One commit for each scan: its checkpoints, with further requests that would commit alone. Other batches are arbitrary. */
  ghost predicate ScanByScan(dbs: seq<Db>, batches: seq<seq<Request>>, relay: string, generation: nat, author: nat, pages: seq<seq<Filter>>)
    requires |dbs| == |batches| + 1
  {
    forall p | 0 <= p < |pages| :: exists k | 0 <= k < |batches| :: BatchOfScan(dbs[k], batches[k], relay, generation, author, pages[p])
  }

  ghost predicate BatchOfScan(db: Db, batch: seq<Request>, relay: string, generation: nat, author: nat, fs: seq<Filter>) {
    && (forall r | r in Checkpointed(relay, generation, author, fs) :: r in batch)
    && (forall r | r in batch :: r in Checkpointed(relay, generation, author, fs) || (ValidRange(r.span) && RefsCurrent(db, r)))
  }

  lemma {:induction false} FlatMember(pages: seq<seq<Filter>>, f: Filter)
    ensures f in Flat(pages) <==> exists p | 0 <= p < |pages| :: f in pages[p]
  {
    if pages != [] {
      FlatMember(pages[1..], f);
      if p :| 0 <= p < |pages| && f in pages[p] {
        if p > 0 { assert pages[1..][p - 1] == pages[p]; }
      }
      if p :| 0 <= p < |pages[1..]| && f in pages[1..][p] { assert pages[p + 1] == pages[1..][p]; }
    }
  }

  /** When every scan commits its own checkpoints, all of them are carried. */
  lemma ScansCarried(dbs: seq<Db>, batches: seq<seq<Request>>, relay: string, generation: nat, author: nat, jobs: seq<Filter>, pages: seq<seq<Filter>>)
    requires Commits(dbs, batches) && NormalDb(dbs[0]) && Completed(jobs, pages) && Committable(dbs[0], relay, generation, author, jobs)
    requires ScanByScan(dbs, batches, relay, generation, author, pages)
    ensures Carried(dbs, batches, Checkpointed(relay, generation, author, Flat(pages)))
  {
    hide MarkBatchOf, RefsCurrent, RefCurrent, NormalDb, Checkpointed, Committable, WellFormed, Tiles;
    forall r | r in Checkpointed(relay, generation, author, Flat(pages))
      ensures exists k | 0 <= k < |batches| :: r in batches[k] && MarkBatchOf(dbs[k], batches[k]).1 == Committed
    {
      CheckpointedMember(relay, generation, author, Flat(pages), r);
      var i :| 0 <= i < |Flat(pages)| && author in Flat(pages)[i].authors && r == RequestOf(relay, generation, Flat(pages)[i]);
      FlatMember(pages, Flat(pages)[i]);
      var p :| 0 <= p < |pages| && Flat(pages)[i] in pages[p];
      var h :| 0 <= h < |pages[p]| && pages[p][h] == Flat(pages)[i];
      CheckpointedMember(relay, generation, author, pages[p], r);
      var k :| 0 <= k < |batches| && BatchOfScan(dbs[k], batches[k], relay, generation, author, pages[p]);
      CommitsGrow(dbs, batches, 0, k);
      StillCommittable(dbs[0], dbs[k], relay, generation, author, jobs);
      PartCommittable(dbs[k], relay, generation, author, jobs, pages, p);
      ScanCommits(dbs[k], relay, generation, author, pages[p], batches[k]);
    }
  }

  lemma PartCommittable(db: Db, relay: string, generation: nat, author: nat, jobs: seq<Filter>, pages: seq<seq<Filter>>, p: nat)
    requires Completed(jobs, pages) && p < |pages| && Committable(db, relay, generation, author, jobs)
    ensures Committable(db, relay, generation, author, pages[p])
  {
    hide RefCurrent, WellFormed, InBox;
    forall c | Hits(pages[p], c) >= 1 ensures Hits(jobs, c) >= 1 { HitsMember(jobs, c); }
  }

  /**
   * A whole backfill: after the scans of all its jobs ended and their checkpoints were committed, in whatever batches and with
   * whatever was committed in between, the account's records miss no second of their bounds, so that the next backfill has
   * nothing to do for them.
   */
  lemma BackfillLeavesNothing(dbs: seq<Db>, batches: seq<seq<Request>>, relay: string, generation: nat, records: seq<AccountRows>,
                              boundsFor: Row -> Option<Interval>, pages: seq<seq<Filter>>, i: nat, j: nat)
    requires Commits(dbs, batches) && NormalDb(dbs[0])
    requires DistinctAccounts(records) && i < |records| && RowsOf(dbs[0], relay, generation, records[i].rows)
    requires j < |records[i].rows| && boundsFor(records[i].rows[j]).Some?
    requires Completed(Combined(ByKind(Singles(records, MissingIn(boundsFor)))), pages)
    requires Carried(dbs, batches, Checkpointed(relay, generation, records[i].pubkey, Flat(pages)))
    ensures var row, b := records[i].rows[j], boundsFor(records[i].rows[j]).value;
            var k := Key(relay, row.kind);
            k in dbs[|batches|].records && Missing(dbs[|batches|].records[k].intervals, b.since, b.until) == []
  {
    var author, row := records[i].pubkey, records[i].rows[j];
    var b, k := boundsFor(row).value, Key(relay, row.kind);
    var jobs := Combined(ByKind(Singles(records, MissingIn(boundsFor))));
    CommitsGrow(dbs, batches, 0, |batches|);
    FlatHits(jobs, pages);
    hide MarkBatchOf, Checkpointed, Completed, Combined, ByKind, Singles, Hits, RefCurrent, Carried, Flat;
    assert RefCurrent(dbs[0], Ref(k, generation)) && k in dbs[0].records by { CurrentStored(dbs[0], Ref(k, generation)); }
    var after := dbs[|batches|].records[k].intervals;
    forall t | Contains(b, t) ensures Covers(after, t) {
      BackfillTiles(records, boundsFor, Cell(author, row.kind, t));
      if !Covers(row.intervals, t) {
        assert MissingCell(records, boundsFor, Cell(author, row.kind, t));
        CarriedCovers(dbs, batches, relay, generation, author, Flat(pages), row.kind, t);
      }
    }
    NothingMissing(after, b);
  }

  lemma CurrentStored(db: Db, ref: Ref)
    requires RefCurrent(db, ref)
    ensures ref.key in db.records
  {
  }

  lemma NothingMissing(after: seq<Interval>, b: Interval)
    requires NormalForm(after) && forall t | Contains(b, t) :: Covers(after, t)
    ensures Missing(after, b.since, b.until) == []
  {
    MissingExact(after, b.since, b.until);
    var left := Missing(after, b.since, b.until);
    if left != [] {
      assert Contains(left[0], left[0].since);
      assert Covers(left, left[0].since);
      assert false;
    }
  }

  lemma BackfillCommittable(db: Db, relay: string, generation: nat, records: seq<AccountRows>, boundsFor: Row -> Option<Interval>, i: nat)
    requires DistinctAccounts(records) && i < |records| && RowsOf(db, relay, generation, records[i].rows)
    requires forall row | boundsFor(row).Some? :: 0 <= boundsFor(row).value.since && boundsFor(row).value.until <= MAX_SAFE
    ensures Committable(db, relay, generation, records[i].pubkey, Combined(ByKind(Singles(records, MissingIn(boundsFor)))))
  {
    var jobs := Combined(ByKind(Singles(records, MissingIn(boundsFor))));
    hide Combined, ByKind, Singles, Hits, RefCurrent;
    forall c | Hits(jobs, c) >= 1 && c.author == records[i].pubkey
      ensures 0 <= c.second <= MAX_SAFE && RefCurrent(db, Ref(Key(relay, c.kind), generation))
    {
      BackfillTiles(records, boundsFor, c);
      assert MissingCell(records, boundsFor, c);
    }
  }

  lemma CatchUpCommittable(db: Db, relay: string, generation: nat, records: seq<AccountRows>, recent: Filter, since: int, i: nat)
    requires DistinctAccounts(records) && i < |records| && RowsOf(db, relay, generation, records[i].rows)
    requires 0 <= recent.since && recent.until <= MAX_SAFE && since <= MAX_SAFE
    requires forall kind | kind in recent.kinds :: exists j | 0 <= j < |records[i].rows| :: records[i].rows[j].kind == kind
    ensures Committable(db, relay, generation, records[i].pubkey, [recent] + Combined(ByKind(Singles(records, CatchUpIn(since)))))
  {
    var jobs := Combined(ByKind(Singles(records, CatchUpIn(since))));
    hide Combined, ByKind, Singles, RefCurrent;
    forall c | Hits([recent] + jobs, c) >= 1 && c.author == records[i].pubkey
      ensures 0 <= c.second <= MAX_SAFE && RefCurrent(db, Ref(Key(relay, c.kind), generation))
    {
      HitsConcat([recent], jobs, c);
      HitsOfFew(recent, recent, c);
      CatchUpTiles(records, since, c);
      assert InBox(c, recent) || WantedCell(records, CatchUpIn(since), c);
    }
  }

  /**
   * The whole initial phase: after the scans of the recent window and of the catch-up jobs ended and their checkpoints were
   * committed, in whatever batches and with whatever was committed in between, a row that was covered up to an edge no later
   * than the snapshot end has one interval reaching from that edge to the snapshot end.
   */
  lemma InitialPhaseContiguous(dbs: seq<Db>, batches: seq<seq<Request>>, relay: string, generation: nat, records: seq<AccountRows>,
                               recent: Filter, since: int, pages: seq<seq<Filter>>, i: nat, j: nat)
    requires Commits(dbs, batches) && NormalDb(dbs[0])
    requires DistinctAccounts(records) && i < |records| && RowsOf(dbs[0], relay, generation, records[i].rows)
    requires recent.since <= since && Completed([recent] + Combined(ByKind(Singles(records, CatchUpIn(since)))), pages)
    requires Carried(dbs, batches, Checkpointed(relay, generation, records[i].pubkey, Flat(pages)))
    requires j < |records[i].rows| && records[i].rows[j].intervals != []
    requires records[i].pubkey in recent.authors && records[i].rows[j].kind in recent.kinds
    requires 0 <= records[i].rows[j].intervals[|records[i].rows[j].intervals| - 1].until <= recent.until
    ensures var row := records[i].rows[j];
            var k, edge := Key(relay, row.kind), row.intervals[|row.intervals| - 1].until;
            && k in dbs[|batches|].records
            && exists m | 0 <= m < |dbs[|batches|].records[k].intervals| ::
                 dbs[|batches|].records[k].intervals[m].since <= edge && recent.until <= dbs[|batches|].records[k].intervals[m].until
  {
    var author, row := records[i].pubkey, records[i].rows[j];
    var k := Key(relay, row.kind);
    var jobs := [recent] + Combined(ByKind(Singles(records, CatchUpIn(since))));
    CommitsGrow(dbs, batches, 0, |batches|);
    FlatHits(jobs, pages);
    hide MarkBatchOf, Checkpointed, Completed, Combined, ByKind, Singles, Hits, RefCurrent, Carried, Flat, NormalForm;
    assert RefCurrent(dbs[0], Ref(k, generation)) && k in dbs[0].records by { CurrentStored(dbs[0], Ref(k, generation)); }
    var after := dbs[|batches|].records[k].intervals;
    forall t | Covers(row.intervals, t) || Hits(jobs, Cell(author, row.kind, t)) >= 1 ensures Covers(after, t) {
      if Hits(jobs, Cell(author, row.kind, t)) >= 1 {
        CarriedCovers(dbs, batches, relay, generation, author, Flat(pages), row.kind, t);
      }
    }
    CoveredContiguous(records, recent, since, i, j, after);
  }

  /**
   * The same phases as the source runs them, with one commit for each scan. Nothing need be assumed of those commits: they go
   * through, because records stay current.
   */
  lemma ScanByScanEnough(dbs: seq<Db>, batches: seq<seq<Request>>, relay: string, generation: nat, records: seq<AccountRows>,
                         boundsFor: Row -> Option<Interval>, recent: Filter, since: int, pages: seq<seq<Filter>>, i: nat)
    requires Commits(dbs, batches) && NormalDb(dbs[0])
    requires DistinctAccounts(records) && i < |records| && RowsOf(dbs[0], relay, generation, records[i].rows)
    requires ScanByScan(dbs, batches, relay, generation, records[i].pubkey, pages)
    ensures Completed(Combined(ByKind(Singles(records, MissingIn(boundsFor)))), pages)
            && (forall row | boundsFor(row).Some? :: 0 <= boundsFor(row).value.since && boundsFor(row).value.until <= MAX_SAFE)
        ==> Carried(dbs, batches, Checkpointed(relay, generation, records[i].pubkey, Flat(pages)))
    ensures Completed([recent] + Combined(ByKind(Singles(records, CatchUpIn(since)))), pages)
            && 0 <= recent.since && recent.until <= MAX_SAFE && since <= MAX_SAFE
            && (forall kind | kind in recent.kinds :: exists j | 0 <= j < |records[i].rows| :: records[i].rows[j].kind == kind)
        ==> Carried(dbs, batches, Checkpointed(relay, generation, records[i].pubkey, Flat(pages)))
  {
    hide NormalDb, ScanByScan, Completed, Carried, Checkpointed, Committable, Combined, ByKind, Singles, RowsOf, DistinctAccounts, Flat;
    var author := records[i].pubkey;
    var backfill := Combined(ByKind(Singles(records, MissingIn(boundsFor))));
    var initial := [recent] + Combined(ByKind(Singles(records, CatchUpIn(since))));
    if Completed(backfill, pages)
       && forall row | boundsFor(row).Some? :: 0 <= boundsFor(row).value.since && boundsFor(row).value.until <= MAX_SAFE {
      BackfillCommittable(dbs[0], relay, generation, records, boundsFor, i);
      ScansCarried(dbs, batches, relay, generation, author, backfill, pages);
    }
    if Completed(initial, pages) && 0 <= recent.since && recent.until <= MAX_SAFE && since <= MAX_SAFE
       && forall kind | kind in recent.kinds :: exists j | 0 <= j < |records[i].rows| :: records[i].rows[j].kind == kind {
      CatchUpCommittable(dbs[0], relay, generation, records, recent, since, i);
      ScansCarried(dbs, batches, relay, generation, author, initial, pages);
    }
  }

  lemma CoveredContiguous(records: seq<AccountRows>, recent: Filter, since: int, i: nat, j: nat, after: seq<Interval>)
    requires DistinctAccounts(records) && i < |records| && j < |records[i].rows| && records[i].rows[j].intervals != []
    requires recent.since <= since && records[i].pubkey in recent.authors && records[i].rows[j].kind in recent.kinds
    requires 0 <= records[i].rows[j].intervals[|records[i].rows[j].intervals| - 1].until <= recent.until
    requires NormalForm(after)
    requires forall t | Covers(records[i].rows[j].intervals, t) || Hits([recent] + Combined(ByKind(Singles(records, CatchUpIn(since)))),
                                                                          Cell(records[i].pubkey, records[i].rows[j].kind, t)) >= 1 :: Covers(after, t)
    ensures var edge := records[i].rows[j].intervals[|records[i].rows[j].intervals| - 1].until;
            exists m | 0 <= m < |after| :: after[m].since <= edge && recent.until <= after[m].until
  {
    hide Combined, ByKind, Singles, SpansFor, Covers, DistinctAccounts, NormalForm, Hits;
    var author, row := records[i].pubkey, records[i].rows[j];
    var jobs := Combined(ByKind(Singles(records, CatchUpIn(since))));
    var window := [Interval(since, recent.until)];
    forall t | Covers(row.intervals + window + SpansFor(jobs, author, row.kind), t) ensures Covers(after, t) {
      CoversSplit(row.intervals + window, SpansFor(jobs, author, row.kind), t);
      CoversSplit(row.intervals, window, t);
      CoversOne(window[0], t);
      SpansCover(jobs, author, row.kind, t);
      HitsConcat([recent], jobs, Cell(author, row.kind, t));
      HitsOfFew(recent, recent, Cell(author, row.kind, t));
    }
    CatchUpContiguous(records, since, recent.until, i, j, after);
  }

  lemma CoversOne(r: Interval, t: int)
    ensures Covers([r], t) <==> Contains(r, t)
  {
    assert Contains([r][0], t) <==> Contains(r, t);
  }
}
