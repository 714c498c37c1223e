/** What the coverage transactions guarantee: order, repetition and batching never matter, and stale work claims nothing. */
module CoverageLaws {
  import opened Basics
  import opened Intervals
  import opened CoverageStore

  ghost predicate ValidMarks(marks: seq<Mark>) {
    forall i | 0 <= i < |marks| :: marks[i].span.since <= marks[i].span.until
  }

  ghost predicate NormalDb(db: Db) {
    forall k | k in db.records :: NormalForm(db.records[k].intervals)
  }

  ghost predicate Claimed(marks: seq<Mark>, k: Key, t: int) {
    exists i | 0 <= i < |marks| :: marks[i].ref.key == k && Contains(marks[i].span, t)
  }

  ghost predicate AllRangesValid(requests: seq<Request>) {
    forall i | 0 <= i < |requests| :: ValidRange(requests[i].span)
  }

  lemma RangesDenote(marks: seq<Mark>, k: Key)
    requires ValidMarks(marks)
    ensures AllValid(RangesFor(marks, k))
    ensures forall t :: Covers(RangesFor(marks, k), t) <==> Claimed(marks, k, t)
  {
    var ranges := RangesFor(marks, k);
    RangesMember(marks, k);
    forall i | 0 <= i < |ranges| ensures ranges[i].since <= ranges[i].until {
      assert ranges[i] in ranges;
    }
    forall t ensures Covers(ranges, t) <==> Claimed(marks, k, t) {
      if Covers(ranges, t) {
        var i :| 0 <= i < |ranges| && Contains(ranges[i], t);
        assert ranges[i] in ranges;
      }
      if Claimed(marks, k, t) {
        var i :| 0 <= i < |marks| && marks[i].ref.key == k && Contains(marks[i].span, t);
        assert marks[i].span in ranges;
      }
    }
  }

  /** After a commit a record covers exactly what it covered before plus the ranges claimed for it. */
  lemma ApplyDenotes(db: Db, marks: seq<Mark>, k: Key)
    requires NormalDb(db) && ValidMarks(marks) && k in db.records
    ensures var after := ApplyMarks(db, marks).records[k].intervals;
            && NormalForm(after)
            && forall t :: Covers(after, t) <==> Covers(db.records[k].intervals, t) || Claimed(marks, k, t)
  {
    var old' := db.records[k].intervals;
    var ranges := RangesFor(marks, k);
    RangesDenote(marks, k);
    if ranges != [] {
      MergeDenotes(old' + ranges);
    }
    forall t
      ensures Covers(ApplyMarks(db, marks).records[k].intervals, t) <==> Covers(old', t) || Claimed(marks, k, t)
    {
      CoversSplit(old', ranges, t);
    }
  }

  lemma ApplyKeepsNormal(db: Db, marks: seq<Mark>)
    requires NormalDb(db) && ValidMarks(marks)
    ensures NormalDb(ApplyMarks(db, marks))
  {
    forall k | k in db.records ensures NormalForm(ApplyMarks(db, marks).records[k].intervals) {
      ApplyDenotes(db, marks, k);
    }
  }

  /** Two lists of marks that claim the same seconds of the same records have the same effect. */
  lemma ApplyCanonical(db: Db, a: seq<Mark>, b: seq<Mark>)
    requires NormalDb(db) && ValidMarks(a) && ValidMarks(b)
    requires forall k, t :: Claimed(a, k, t) <==> Claimed(b, k, t)
    ensures ApplyMarks(db, a) == ApplyMarks(db, b)
  {
    forall k | k in db.records ensures ApplyMarks(db, a).records[k] == ApplyMarks(db, b).records[k] {
      ApplyDenotes(db, a, k);
      ApplyDenotes(db, b, k);
      NormalFormUnique(ApplyMarks(db, a).records[k].intervals, ApplyMarks(db, b).records[k].intervals);
    }
    assert ApplyMarks(db, a).records == ApplyMarks(db, b).records;
  }

  lemma ClaimedSplit(a: seq<Mark>, b: seq<Mark>, k: Key, t: int)
    ensures Claimed(a + b, k, t) <==> Claimed(a, k, t) || Claimed(b, k, t)
  {
    if Claimed(a, k, t) {
      var i :| 0 <= i < |a| && a[i].ref.key == k && Contains(a[i].span, t);
      assert (a + b)[i] == a[i];
    }
    if Claimed(b, k, t) {
      var i :| 0 <= i < |b| && b[i].ref.key == k && Contains(b[i].span, t);
      assert (a + b)[|a| + i] == b[i];
    }
  }

  lemma ApplyKeepsKeys(db: Db, marks: seq<Mark>)
    ensures ApplyMarks(db, marks).records.Keys == db.records.Keys && ApplyMarks(db, marks).registry == db.registry
  {
  }

  lemma RecordInSteps(db: Db, a: seq<Mark>, b: seq<Mark>, k: Key)
    requires NormalDb(db) && NormalDb(ApplyMarks(db, a)) && ValidMarks(a) && ValidMarks(b) && k in db.records
    ensures k in ApplyMarks(db, a).records && ApplyMarks(ApplyMarks(db, a), b).records[k] == ApplyMarks(db, a + b).records[k]
  {
    var mid := ApplyMarks(db, a);
    ApplyKeepsKeys(db, a);
    ConcatValid(a, b);
    hide NormalDb, ApplyMarks, Claimed, ValidMarks;
    ApplyDenotes(db, a, k);
    ApplyDenotes(mid, b, k);
    ApplyDenotes(db, a + b, k);
    forall t ensures Claimed(a + b, k, t) <==> Claimed(a, k, t) || Claimed(b, k, t) {
      ClaimedSplit(a, b, k, t);
    }
    NormalFormUnique(ApplyMarks(mid, b).records[k].intervals, ApplyMarks(db, a + b).records[k].intervals);
  }

  lemma ConcatValid(a: seq<Mark>, b: seq<Mark>)
    requires ValidMarks(a) && ValidMarks(b)
    ensures ValidMarks(a + b)
  {
  }

  /** Two commits in a row are one commit of both lists. */
  lemma ApplyInSteps(db: Db, a: seq<Mark>, b: seq<Mark>)
    requires NormalDb(db) && ValidMarks(a) && ValidMarks(b)
    ensures ApplyMarks(ApplyMarks(db, a), b) == ApplyMarks(db, a + b)
  {
    hide NormalDb, ValidMarks, ApplyMarks;
    var mid := ApplyMarks(db, a);
    ApplyKeepsNormal(db, a);
    ApplyKeepsKeys(db, a);
    ApplyKeepsKeys(mid, b);
    ApplyKeepsKeys(db, a + b);
    forall k | k in db.records ensures ApplyMarks(mid, b).records[k] == ApplyMarks(db, a + b).records[k] {
      RecordInSteps(db, a, b, k);
    }
    assert ApplyMarks(mid, b).records == ApplyMarks(db, a + b).records;
  }

  lemma ApplyKeepsCurrency(db: Db, marks: seq<Mark>, ref: Ref)
    ensures RefCurrent(ApplyMarks(db, marks), ref) <==> RefCurrent(db, ref)
  {
  }

  // ---- requests ----

  lemma {:induction false} ActiveMember(requests: seq<Request>, r: Request)
    ensures r in ActiveOf(requests) <==> r in requests && !r.aborted
  {
    if requests != [] {
      var n := |requests| - 1;
      ActiveMember(requests[..n], r);
      assert requests == requests[..n] + [requests[n]];
    }
  }

  lemma {:induction false} MarksMember(requests: seq<Request>, m: Mark)
    ensures m in Marks(requests) <==> exists r :: r in requests && m.span == r.span && m.ref in r.refs
  {
    if requests != [] {
      var n := |requests| - 1;
      var last := requests[n];
      MarksMember(requests[..n], m);
      assert requests == requests[..n] + [last];
      var own := RefMarks(last.refs, last.span);
      if m.ref in last.refs && m.span == last.span {
        var j :| 0 <= j < |last.refs| && last.refs[j] == m.ref;
        assert own[j] == m;
      }
      assert m in own <==> m.ref in last.refs && m.span == last.span;
    }
  }

  lemma MarksOfActive(requests: seq<Request>, m: Mark)
    ensures m in Marks(ActiveOf(requests)) <==> exists r :: r in requests && !r.aborted && m.span == r.span && m.ref in r.refs
  {
    MarksMember(ActiveOf(requests), m);
    forall r ensures r in ActiveOf(requests) <==> r in requests && !r.aborted {
      ActiveMember(requests, r);
    }
  }

  lemma SameMarksSameClaims(a: seq<Mark>, b: seq<Mark>)
    requires forall m :: m in a <==> m in b
    ensures forall k, t :: Claimed(a, k, t) <==> Claimed(b, k, t)
    ensures ValidMarks(a) ==> ValidMarks(b)
    ensures forall db :: AllCurrent(db, a) ==> AllCurrent(db, b)
  {
    forall k, t ensures Claimed(a, k, t) <==> Claimed(b, k, t) {
      if Claimed(a, k, t) {
        var i :| 0 <= i < |a| && a[i].ref.key == k && Contains(a[i].span, t);
        assert a[i] in b;
      }
      if Claimed(b, k, t) {
        var i :| 0 <= i < |b| && b[i].ref.key == k && Contains(b[i].span, t);
        assert b[i] in a;
      }
    }
    forall i | 0 <= i < |b| ensures b[i] in a { assert b[i] in b; }
  }

  lemma ActiveMarksValid(requests: seq<Request>)
    requires AllRangesValid(requests)
    ensures ValidMarks(Marks(ActiveOf(requests)))
  {
    var marks := Marks(ActiveOf(requests));
    forall i | 0 <= i < |marks| ensures marks[i].span.since <= marks[i].span.until {
      assert marks[i] in marks;
      MarksOfActive(requests, marks[i]);
    }
  }

  /** A batch is determined by the set of its requests: order and repetition do not matter, nor do aborted ones. */
  lemma BatchIsASet(db: Db, a: seq<Request>, b: seq<Request>)
    requires NormalDb(db) && AllRangesValid(a) && AllRangesValid(b)
    requires forall r: Request | !r.aborted :: r in a <==> r in b
    ensures MarkBatchOf(db, a) == MarkBatchOf(db, b)
  {
    var ma, mb := Marks(ActiveOf(a)), Marks(ActiveOf(b));
    forall m ensures m in ma <==> m in mb {
      MarksOfActive(a, m);
      MarksOfActive(b, m);
    }
    ActiveMarksValid(a);
    ActiveMarksValid(b);
    SameMarksSameClaims(ma, mb);
    SameMarksSameClaims(mb, ma);
    ApplyCanonical(db, ma, mb);
  }

  /** The same requests, each committed in a transaction of its own. */
  ghost function MarkEach(db: Db, requests: seq<Request>): Db {
    if requests == [] then db
    else
      var n := |requests| - 1;
      MarkBatchOf(MarkEach(db, requests[..n]), [requests[n]]).0
  }

  lemma SingleActive(r: Request)
    ensures ActiveOf([r]) == if r.aborted then [] else [r]
    ensures Marks([r]) == RefMarks(r.refs, r.span)
  {
    assert [r][..0] == [];
    assert Marks([]) + RefMarks(r.refs, r.span) == RefMarks(r.refs, r.span);
  }

  lemma LastRequestLast(requests: seq<Request>)
    requires requests != []
    ensures var n := |requests| - 1;
            Marks(ActiveOf(requests)) == Marks(ActiveOf(requests[..n])) + Marks(ActiveOf([requests[n]]))
  {
    var n := |requests| - 1;
    SingleActive(requests[n]);
    if requests[n].aborted {
      assert ActiveOf(requests) == ActiveOf(requests[..n]);
    } else {
      assert ActiveOf(requests)[..|ActiveOf(requests[..n])|] == ActiveOf(requests[..n]);
    }
  }

  lemma AllCurrentSplit(db: Db, a: seq<Mark>, b: seq<Mark>)
    requires AllCurrent(db, a + b)
    ensures AllCurrent(db, a) && AllCurrent(db, b)
    ensures AllCurrent(ApplyMarks(db, a), b)
  {
    assert forall i | 0 <= i < |a| :: a[i] == (a + b)[i];
    assert forall i | 0 <= i < |b| :: b[i] == (a + b)[|a| + i];
  }

  lemma {:induction false} EachEqualsBatch(db: Db, requests: seq<Request>)
    requires NormalDb(db) && AllRangesValid(requests)
    requires AllCurrent(db, Marks(ActiveOf(requests)))
    ensures MarkEach(db, requests) == ApplyMarks(db, Marks(ActiveOf(requests)))
  {
    if requests == [] {
      ApplyNothing(db);
    } else {
      var n := |requests| - 1;
      var mb, ml := Marks(ActiveOf(requests[..n])), Marks(ActiveOf([requests[n]]));
      LastRequestLast(requests);
      AllCurrentSplit(db, mb, ml);
      EachEqualsBatch(db, requests[..n]);
      ActiveMarksValid(requests[..n]);
      ActiveMarksValid([requests[n]]);
      ApplyInSteps(db, mb, ml);
    }
  }

  ghost predicate RefsCurrent(db: Db, r: Request) {
    r.aborted || forall j | 0 <= j < |r.refs| :: RefCurrent(db, r.refs[j])
  }

  lemma AloneCommits(db: Db, r: Request)
    requires ValidRange(r.span)
    ensures MarkBatchOf(db, [r]).1.Committed? <==> RefsCurrent(db, r)
  {
    SingleActive(r);
    if r.aborted {
      assert ActiveOf([r]) == [] && Marks([]) == [];
      hide ActiveOf, Marks, ApplyMarks;
    } else {
      RefMarksCurrent(db, r);
      hide ActiveOf, Marks, RefMarks, ApplyMarks, RefCurrent, AllCurrent;
    }
  }

  lemma RefMarksCurrent(db: Db, r: Request)
    ensures AllCurrent(db, RefMarks(r.refs, r.span)) <==> forall j | 0 <= j < |r.refs| :: RefCurrent(db, r.refs[j])
  {
    hide RefCurrent;
    var own := RefMarks(r.refs, r.span);
    assert |own| == |r.refs|;
    forall j | 0 <= j < |r.refs| ensures own[j].ref == r.refs[j] { }
  }

  lemma BatchCommits(db: Db, requests: seq<Request>)
    ensures AllCurrent(db, Marks(ActiveOf(requests))) <==> forall r | r in requests :: RefsCurrent(db, r)
  {
    hide RefCurrent, Marks, ActiveOf;
    var marks := Marks(ActiveOf(requests));
    if AllCurrent(db, marks) {
      forall r | r in requests && !r.aborted ensures RefsCurrent(db, r) {
        forall j | 0 <= j < |r.refs| ensures RefCurrent(db, r.refs[j]) {
          MarksOfActive(requests, Mark(r.refs[j], r.span));
        }
      }
    } else {
      var i :| 0 <= i < |marks| && !RefCurrent(db, marks[i].ref);
      MarksOfActive(requests, marks[i]);
    }
  }

  /**
   * One batch equals its requests committed one by one, in any order and any multiplicity,
   * whenever the batch commits; and it commits exactly when each request alone would.
   */
  lemma BatchEqualsAnySequence(db: Db, requests: seq<Request>, order: seq<Request>)
    requires NormalDb(db) && AllRangesValid(requests)
    requires forall r :: r in order <==> r in requests
    ensures MarkBatchOf(db, requests).1.Committed? <==> forall r | r in requests :: MarkBatchOf(db, [r]).1.Committed?
    ensures MarkBatchOf(db, requests).1.Committed? ==> MarkEach(db, order) == MarkBatchOf(db, requests).0
  {
    hide NormalDb, RefsCurrent, AllCurrent, ApplyMarks, Marks, ActiveOf, MarkEach;
    forall r | r in requests ensures MarkBatchOf(db, [r]).1.Committed? <==> RefsCurrent(db, r) {
      var i :| 0 <= i < |requests| && requests[i] == r;
      AloneCommits(db, r);
    }
    BatchCommits(db, requests);
    BatchCommits(db, order);
    if AllCurrent(db, Marks(ActiveOf(requests))) {
      forall i | 0 <= i < |order| ensures ValidRange(order[i].span) { assert order[i] in requests; }
      BatchIsASet(db, requests, order);
      EachEqualsBatch(db, order);
    }
  }

  /** Repeating a committed batch changes nothing, so an interrupted attempt may simply be redone. */
  lemma BatchIdempotent(db: Db, requests: seq<Request>)
    requires NormalDb(db) && AllRangesValid(requests)
    ensures var once := MarkBatchOf(db, requests);
            once.1.Committed? ==> MarkBatchOf(once.0, requests) == once
  {
    var marks := Marks(ActiveOf(requests));
    if AllCurrent(db, marks) {
      ActiveMarksValid(requests);
      ApplyInSteps(db, marks, marks);
      forall k, t ensures Claimed(marks + marks, k, t) <==> Claimed(marks, k, t) {
        ClaimedSplit(marks, marks, k, t);
      }
      ApplyCanonical(db, marks + marks, marks);
      forall i | 0 <= i < |marks| ensures RefCurrent(ApplyMarks(db, marks), marks[i].ref) {
        ApplyKeepsCurrency(db, marks, marks[i].ref);
      }
    }
  }

  /** A request that refers to another generation, or to a database without a registry, changes nothing at all. */
  lemma StaleRequestChangesNothing(db: Db, requests: seq<Request>, r: Request, ref: Ref)
    requires r in requests && !r.aborted && ref in r.refs
    requires db.registry.None? || db.registry.value.generation != ref.generation
    ensures MarkBatchOf(db, requests).0 == db && !MarkBatchOf(db, requests).1.Committed?
  {
    var m := Mark(ref, r.span);
    MarksOfActive(requests, m);
    var marks := Marks(ActiveOf(requests));
    var i :| 0 <= i < |marks| && marks[i] == m;
    assert !RefCurrent(db, marks[i].ref);
  }
}
