/** The durable coverage records of one owner, and the transactions that change them. */
module CoverageStore {
  import opened Basics
  import opened Intervals

  datatype Key = Key(relay: string, kind: nat)

  const VERSION := 1

  /** A stored record repeats its key in its own fields, which may disagree with the key when it was not written by this version. */
  datatype Record = Record(version: nat, relay: string, kind: nat, generation: nat, intervals: seq<Interval>)

  /** The registry names the database generation: a reset database gets a new one. */
  datatype Registry = Registry(generation: nat, kinds: set<nat>)

  datatype Db = Db(registry: Option<Registry>, records: map<Key, Record>)

  /** A row as `read` returned it earlier: where to claim, and under which generation. */
  datatype Ref = Ref(key: Key, generation: nat)

  datatype Request = Request(refs: seq<Ref>, span: Interval, aborted: bool)

  datatype Mark = Mark(ref: Ref, span: Interval)

  datatype Outcome = Committed | Invalidated | InvalidInterval

  predicate ValidRange(r: Interval) {
    0 <= r.since <= r.until <= MAX_SAFE
  }

  /** A record that maintenance keeps: current version and generation, registered kind, its own key, intervals in normal form. */
  ghost predicate Usable(reg: Registry, k: Key, rec: Record) {
    && rec.version == VERSION && rec.generation == reg.generation
    && k == Key(rec.relay, rec.kind) && k.kind in reg.kinds
    && NormalForm(rec.intervals)
    && forall i | 0 <= i < |rec.intervals| :: 0 <= rec.intervals[i].since && rec.intervals[i].until <= MAX_SAFE
  }

  /** Executable form of `NormalForm` on safe, non-negative seconds, as the audit computes it. */
  function NormalFrom(intervals: seq<Interval>, previous: int): bool {
    intervals == [] ||
    (0 <= intervals[0].since <= intervals[0].until <= MAX_SAFE && intervals[0].since > previous + 1
     && NormalFrom(intervals[1..], intervals[0].until))
  }

  function IsUsable(reg: Registry, k: Key, rec: Record): bool {
    if rec.version != VERSION || rec.generation != reg.generation || rec.kind !in reg.kinds then false
    else if k != Key(rec.relay, rec.kind) then false
    else NormalFrom(rec.intervals, -2)
  }

  lemma {:induction false} NormalFromMeaning(intervals: seq<Interval>, previous: int)
    ensures NormalFrom(intervals, previous) <==>
            && NormalForm(intervals)
            && (forall i | 0 <= i < |intervals| :: 0 <= intervals[i].since && intervals[i].until <= MAX_SAFE)
            && (intervals != [] ==> previous + 1 < intervals[0].since)
  {
    if intervals != [] {
      var rest := intervals[1..];
      NormalFromMeaning(rest, intervals[0].until);
      assert forall i | 0 <= i < |rest| :: rest[i] == intervals[i + 1];
      if NormalFrom(intervals, previous) {
        forall i, j | 0 <= i < j < |intervals| ensures intervals[i].until + 1 < intervals[j].since {
          if i > 0 { assert rest[i - 1].until + 1 < rest[j - 1].since; }
          else if j > 1 { assert rest[0].until + 1 < rest[j - 1].since; }
        }
        forall i | 0 <= i < |intervals| ensures intervals[i].since <= intervals[i].until && 0 <= intervals[i].since {
          if i > 0 { assert intervals[i] == rest[i - 1]; }
        }
      } else if NormalForm(intervals) {
        assert NormalForm(rest);
      }
    }
  }

  /** The audit's test keeps exactly the usable records. */
  lemma AuditIsExact(reg: Registry, k: Key, rec: Record)
    ensures IsUsable(reg, k, rec) <==> Usable(reg, k, rec)
  {
    NormalFromMeaning(rec.intervals, -2);
  }

  // ---- what a batch asks for ----

  function ActiveOf(requests: seq<Request>): seq<Request> {
    if requests == [] then []
    else
      var n := |requests| - 1;
      ActiveOf(requests[..n]) + if requests[n].aborted then [] else [requests[n]]
  }

  function RefMarks(refs: seq<Ref>, span: Interval): (r: seq<Mark>)
    ensures |r| == |refs| && forall i | 0 <= i < |refs| :: r[i] == Mark(refs[i], span)
  {
    seq(|refs|, i requires 0 <= i < |refs| => Mark(refs[i], span))
  }

  /** Every (record, interval) pair a list of requests asks for, in order. */
  function Marks(requests: seq<Request>): seq<Mark> {
    if requests == [] then []
    else
      var n := |requests| - 1;
      Marks(requests[..n]) + RefMarks(requests[n].refs, requests[n].span)
  }

  function RangesFor(marks: seq<Mark>, k: Key): seq<Interval> {
    if marks == [] then []
    else
      var n := |marks| - 1;
      RangesFor(marks[..n], k) + if marks[n].ref.key == k then [marks[n].span] else []
  }

  predicate RefCurrent(db: Db, ref: Ref) {
    && db.registry.Some?
    && db.registry.value.generation == ref.generation
    && ref.key.kind in db.registry.value.kinds
    && ref.key in db.records
    && db.records[ref.key].generation == ref.generation
  }

  /** The claim phase looks at the registry only; the record itself is looked at when it is updated. */
  predicate RefRegistered(db: Db, ref: Ref) {
    && db.registry.Some?
    && db.registry.value.generation == ref.generation
    && ref.key.kind in db.registry.value.kinds
  }

  ghost predicate AllCurrent(db: Db, marks: seq<Mark>) {
    forall i | 0 <= i < |marks| :: RefCurrent(db, marks[i].ref)
  }

  function Widen(rec: Record, ranges: seq<Interval>): Record {
    if ranges == [] then rec else rec.(intervals := Merge(rec.intervals + ranges))
  }

  /** Effect of committing the marks: each named record absorbs its ranges, others stay. */
  ghost function ApplyMarks(db: Db, marks: seq<Mark>): Db {
    db.(records := map k | k in db.records :: Widen(db.records[k], RangesFor(marks, k)))
  }

  ghost function MarkBatchOf(db: Db, requests: seq<Request>): (Db, Outcome) {
    if exists i | 0 <= i < |requests| :: !ValidRange(requests[i].span) then (db, InvalidInterval)
    else
      var marks := Marks(ActiveOf(requests));
      if AllCurrent(db, marks) then (ApplyMarks(db, marks), Committed) else (db, Invalidated)
  }

  ghost function AuditedRecords(db: Db, reg: Registry): map<Key, Record> {
    map k | k in db.records && Usable(reg, k, db.records[k]) :: db.records[k]
  }

  ghost function ReconcileOf(db: Db, kinds: set<nat>, uuid: nat): Db {
    var reg := Registry(if db.registry.Some? then db.registry.value.generation else uuid, kinds);
    Db(Some(reg), AuditedRecords(db, reg))
  }

  /** `read` creates a missing registry with the kinds selected by the last `reconcile`. */
  ghost function ReadOf(db: Db, relay: string, kinds: set<nat>, selected: set<nat>, uuid: nat): (Db, Outcome) {
    var reg := if db.registry.Some? then db.registry.value else Registry(uuid, selected);
    if !(kinds <= reg.kinds) then (db, Invalidated)
    else
      (Db(Some(reg), db.records + TouchedRecords(db, reg, relay, kinds)), Committed)
  }

  ghost function TouchedRecords(db: Db, reg: Registry, relay: string, kinds: set<nat>): map<Key, Record> {
    map kind | kind in kinds :: Key(relay, kind) := RowFor(db, reg, Key(relay, kind))
  }

  lemma TouchedRows(db: Db, reg: Registry, relay: string, kinds: set<nat>, records: map<Key, Record>)
    requires forall kind | kind in kinds :: Key(relay, kind) in records && records[Key(relay, kind)] == RowFor(db, reg, Key(relay, kind))
    requires forall k | k in records :: k in db.records || (k.relay == relay && k.kind in kinds)
    requires forall k | k in db.records && !(k.relay == relay && k.kind in kinds) :: k in records && records[k] == db.records[k]
    ensures records == db.records + TouchedRecords(db, reg, relay, kinds)
  {
    var touched := TouchedRecords(db, reg, relay, kinds);
    forall k ensures k in touched <==> k.relay == relay && k.kind in kinds {
      if k.relay == relay && k.kind in kinds { assert k == Key(relay, k.kind); }
    }
    forall k | k in touched ensures touched[k] == RowFor(db, reg, k) {
      assert k == Key(relay, k.kind);
    }
    forall k ensures k in records <==> k in db.records + touched {
      if k in touched { assert k == Key(relay, k.kind); }
    }
  }

  ghost function RowFor(db: Db, reg: Registry, k: Key): Record {
    if k in db.records && Usable(reg, k, db.records[k]) then db.records[k] else Record(VERSION, k.relay, k.kind, reg.generation, [])
  }

  /** One owner's coverage object store. Each method is one readwrite transaction: on an error it changes nothing. */
  class Store {
    var registry: Option<Registry>
    var records: map<Key, Record>
    var selectedKinds: set<nat>

    function Contents(): Db
      reads this
    {
      Db(registry, records)
    }

    constructor ()
      ensures Contents() == Db(None, map[]) && selectedKinds == {}
    {
      registry, records, selectedKinds := None, map[], {};
    }

    method Reconcile(kinds: set<nat>, uuid: nat)
      modifies this
      ensures Contents() == ReconcileOf(old(Contents()), kinds, uuid)
      ensures selectedKinds == kinds
    {
      selectedKinds := kinds;
      var generation := if registry.Some? then registry.value.generation else uuid;
      var reg := Registry(generation, selectedKinds);
      registry := Some(reg);
      ghost var before := records;
      var invalid := set k | k in records && !IsUsable(reg, k, records[k]);
      forall k | k in records ensures IsUsable(reg, k, records[k]) <==> Usable(reg, k, records[k]) {
        AuditIsExact(reg, k, records[k]);
      }
      records := records - invalid;
      assert records == AuditedRecords(old(Contents()), reg);
    }

    method Read(relay: string, kinds: set<nat>, uuid: nat) returns (outcome: Outcome, rows: map<nat, Record>)
      modifies this
      ensures (Contents(), outcome) == ReadOf(old(Contents()), relay, kinds, old(selectedKinds), uuid)
      ensures selectedKinds == old(selectedKinds)
      ensures outcome.Committed? ==> rows.Keys == kinds && forall kind | kind in kinds ::
                                       Key(relay, kind) in records && rows[kind] == records[Key(relay, kind)]
    {
      var reg := if registry.Some? then registry.value else Registry(uuid, selectedKinds);
      rows := map[];
      if !(kinds <= reg.kinds) { return Invalidated, rows; }
      registry := Some(reg);
      ghost var before := old(Contents());
      var todo := kinds;
      while todo != {}
        invariant todo <= kinds
        invariant rows.Keys == kinds - todo
        invariant forall kind | kind in rows :: rows[kind] == RowFor(before, reg, Key(relay, kind))
        invariant forall kind | kind in rows :: Key(relay, kind) in records && records[Key(relay, kind)] == rows[kind]
        invariant forall k | k in records :: k in before.records || (k.relay == relay && k.kind in rows)
        invariant forall k | k in before.records && !(k.relay == relay && k.kind in rows) :: k in records && records[k] == before.records[k]
        invariant registry == Some(reg) && selectedKinds == old(selectedKinds)
      {
        var kind :| kind in todo;
        var key := Key(relay, kind);
        todo := todo - {kind};
        if key in records { AuditIsExact(reg, key, records[key]); }
        if !(key in records && IsUsable(reg, key, records[key])) {
          records := records[key := Record(VERSION, relay, key.kind, reg.generation, [])];
        }
        rows := rows[kind := records[key]];
      }
      outcome := Committed;
      TouchedRows(before, reg, relay, kinds, records);
    }

    method MarkBatch(requests: seq<Request>) returns (outcome: Outcome)
      modifies this
      ensures (Contents(), outcome) == MarkBatchOf(old(Contents()), requests)
      ensures selectedKinds == old(selectedKinds)
    {
      hide Marks, ActiveOf, Grouped, ApplyMarks, AllCurrent, RefRegistered;
      var valid, active := Active(requests);
      if !valid { return InvalidInterval; }
      RegisteredIfCurrent(Contents(), Marks(active));
      if active == [] {
        ApplyNothing(Contents());
        return Committed;
      }
      var ok, changes := Collect(active);
      if !ok { return Invalidated; }
      ghost var before := Contents();
      ghost var marks := Marks(active);
      var current := forall k | k in changes :: registry.Some? && k in records && records[k].generation == registry.value.generation;
      CurrentIffFound(before, marks, changes);
      if !current { return Invalidated; }
      Update(changes);
      UpdatedIsApplied(before, marks, changes, records);
      outcome := Committed;
    }

    /** Drops aborted requests; any malformed range rejects the whole batch. */
    method Active(requests: seq<Request>) returns (valid: bool, active: seq<Request>)
      ensures valid <==> forall i | 0 <= i < |requests| :: ValidRange(requests[i].span)
      ensures valid ==> active == ActiveOf(requests)
    {
      active := [];
      for i := 0 to |requests|
        invariant active == ActiveOf(requests[..i])
        invariant forall j | 0 <= j < i :: ValidRange(requests[j].span)
      {
        assert requests[..i + 1][..i] == requests[..i];
        if !ValidRange(requests[i].span) { return false, active; }
        if !requests[i].aborted { active := active + [requests[i]]; }
      }
      assert requests[..|requests|] == requests;
      valid := true;
    }

    /** Groups the ranges by record key, stopping at the first reference to another generation. */
    method Collect(active: seq<Request>) returns (ok: bool, changes: map<Key, seq<Interval>>)
      ensures ok <==> forall i | 0 <= i < |Marks(active)| :: RefRegistered(Contents(), Marks(active)[i].ref)
      ensures ok ==> Grouped(Marks(active), changes) && forall k | k in changes :: changes[k] != []
    {
      changes := map[];
      ghost var seen: seq<Mark> := [];
      GroupNone();
      hide Grouped, RefRegistered;
      for i := 0 to |active|
        invariant seen == Marks(active[..i])
        invariant Grouped(seen, changes)
        invariant forall j | 0 <= j < |seen| :: RefRegistered(Contents(), seen[j].ref)
      {
        var entry := active[i];
        assert active[..i + 1][..i] == active[..i];
        for j := 0 to |entry.refs|
          invariant seen == Marks(active[..i]) + RefMarks(entry.refs, entry.span)[..j]
          invariant Grouped(seen, changes)
          invariant forall m | 0 <= m < |seen| :: RefRegistered(Contents(), seen[m].ref)
        {
          var ref := entry.refs[j];
          if !RefRegistered(Contents(), ref) {
            MarksPrefix(active, i + 1);
            assert Marks(active[..i + 1])[|Marks(active[..i])| + j] == Mark(ref, entry.span);
            return false, changes;
          }
          GroupOne(seen, changes, Mark(ref, entry.span));
          changes := changes[ref.key := (if ref.key in changes then changes[ref.key] else []) + [entry.span]];
          seen := seen + [Mark(ref, entry.span)];
        }
      }
      assert active[..|active|] == active;
      GroupedHolds(seen, changes);
      ok := true;
    }

    /** Rewrites each named record, unless merging leaves its intervals as they were. */
    method Update(changes: map<Key, seq<Interval>>)
      requires changes.Keys <= records.Keys
      requires forall k | k in changes :: changes[k] != []
      modifies this`records
      ensures records.Keys == old(records).Keys
      ensures forall k | k in records :: records[k] == Widen(old(records)[k], if k in changes then changes[k] else [])
    {
      var todo := changes.Keys;
      while todo != {}
        invariant todo <= changes.Keys && records.Keys == old(records).Keys
        invariant forall k | k in records && (k !in changes || k in todo) :: records[k] == old(records)[k]
        invariant forall k | k in changes && k !in todo :: records[k] == Widen(old(records)[k], changes[k])
      {
        var k :| k in todo;
        todo := todo - {k};
        var intervals := MergeCoverage(records[k].intervals + changes[k]);
        if intervals != records[k].intervals {
          records := records[k := records[k].(intervals := intervals)];
        }
      }
    }
  }

  ghost predicate Grouped(marks: seq<Mark>, changes: map<Key, seq<Interval>>) {
    && (forall k | k in changes :: changes[k] == RangesFor(marks, k) && changes[k] != [])
    && (forall k | k !in changes :: RangesFor(marks, k) == [])
  }

  lemma GroupNone()
    ensures Grouped([], map[])
  {
  }

  lemma GroupedHolds(marks: seq<Mark>, changes: map<Key, seq<Interval>>)
    requires Grouped(marks, changes)
    ensures forall k | k in changes :: changes[k] != []
  {
  }

  lemma GroupOne(marks: seq<Mark>, changes: map<Key, seq<Interval>>, m: Mark)
    requires Grouped(marks, changes)
    ensures Grouped(marks + [m], changes[m.ref.key := (if m.ref.key in changes then changes[m.ref.key] else []) + [m.span]])
  {
    assert (marks + [m])[..|marks|] == marks;
  }

  lemma {:induction false} MarksPrefix(active: seq<Request>, n: nat)
    requires n <= |active|
    ensures |Marks(active[..n])| <= |Marks(active)| && Marks(active)[..|Marks(active[..n])|] == Marks(active[..n])
  {
    if n < |active| {
      MarksPrefix(active[..|active| - 1], n);
      assert active[..|active| - 1][..n] == active[..n];
    } else {
      assert active[..n] == active;
    }
  }

  lemma {:induction false} RangesMember(marks: seq<Mark>, k: Key)
    ensures forall r :: r in RangesFor(marks, k) <==> exists i | 0 <= i < |marks| :: marks[i].ref.key == k && marks[i].span == r
  {
    if marks != [] {
      var n := |marks| - 1;
      RangesMember(marks[..n], k);
      forall r ensures r in RangesFor(marks, k) <==> exists i | 0 <= i < |marks| :: marks[i].ref.key == k && marks[i].span == r {
        if r in RangesFor(marks[..n], k) {
          var i :| 0 <= i < n && marks[..n][i].ref.key == k && marks[..n][i].span == r;
          assert marks[i].ref.key == k;
        }
        if i :| 0 <= i < |marks| && marks[i].ref.key == k && marks[i].span == r {
          if i < n { assert marks[..n][i].ref.key == k; }
        }
      }
    }
  }

  lemma RangesNonEmpty(marks: seq<Mark>, k: Key)
    requires RangesFor(marks, k) != []
    ensures exists i :: 0 <= i < |marks| && marks[i].ref.key == k
  {
    RangesMember(marks, k);
    assert RangesFor(marks, k)[0] in RangesFor(marks, k);
  }

  lemma CurrentIffFound(db: Db, marks: seq<Mark>, changes: map<Key, seq<Interval>>)
    requires Grouped(marks, changes)
    requires forall i | 0 <= i < |marks| :: RefRegistered(db, marks[i].ref)
    ensures AllCurrent(db, marks) <==>
            forall k | k in changes :: db.registry.Some? && k in db.records && db.records[k].generation == db.registry.value.generation
  {
    if forall k | k in changes :: db.registry.Some? && k in db.records && db.records[k].generation == db.registry.value.generation {
      forall i | 0 <= i < |marks| ensures RefCurrent(db, marks[i].ref) {
        RangesMember(marks, marks[i].ref.key);
        assert marks[i].span in RangesFor(marks, marks[i].ref.key);
      }
    } else {
      var k :| k in changes && !(db.registry.Some? && k in db.records && db.records[k].generation == db.registry.value.generation);
      RangesNonEmpty(marks, k);
    }
  }

  lemma UpdatedIsApplied(db: Db, marks: seq<Mark>, changes: map<Key, seq<Interval>>, records: map<Key, Record>)
    requires Grouped(marks, changes)
    requires records.Keys == db.records.Keys
    requires forall k | k in records :: records[k] == Widen(db.records[k], if k in changes then changes[k] else [])
    ensures Db(db.registry, records) == ApplyMarks(db, marks)
  {
    assert records == ApplyMarks(db, marks).records;
  }

  lemma RegisteredIfCurrent(db: Db, marks: seq<Mark>)
    ensures AllCurrent(db, marks) ==> forall i | 0 <= i < |marks| :: RefRegistered(db, marks[i].ref)
  {
  }

  lemma ApplyNothing(db: Db)
    ensures ApplyMarks(db, []) == db && Marks([]) == [] && AllCurrent(db, [])
  {
    assert ApplyMarks(db, []).records == db.records;
  }
}
