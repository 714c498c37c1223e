/** What the coverage transactions keep, hand out and accept, written out. */
module StoreLaws {
  import opened Basics
  import opened Intervals
  import opened CoverageStore
  import opened CoverageLaws

  /**
   * A record survives when it is of version 1 and of the generation, of a registered kind, filed under its own relay and kind,
   * and its intervals are sorted, neither touching nor overlapping, of safe seconds.
   */
  ghost predicate Keepable(generation: nat, kinds: set<nat>, k: Key, rec: Record) {
    && rec.version == 1 && rec.generation == generation && rec.kind in kinds && rec.relay == k.relay && rec.kind == k.kind
    && (forall i | 0 <= i < |rec.intervals| :: 0 <= rec.intervals[i].since <= rec.intervals[i].until <= 9007199254740991)
    && (forall i, j | 0 <= i < j < |rec.intervals| :: rec.intervals[i].until + 1 < rec.intervals[j].since)
  }

  /** Reconciling registers the kinds, keeps the generation if there is one, and keeps exactly the records that can be kept. */
  lemma ReconcileIs(db: Db, kinds: set<nat>, uuid: nat)
    ensures var generation := if db.registry.Some? then db.registry.value.generation else uuid;
            var db' := ReconcileOf(db, kinds, uuid);
            && db'.registry == Some(Registry(generation, kinds))
            && (forall k :: k in db'.records <==> k in db.records && Keepable(generation, kinds, k, db.records[k]))
            && forall k | k in db'.records :: db'.records[k] == db.records[k]
  {
  }

  /**
   * Reading rows of a relay is refused when a kind is not registered, and changes nothing then. Otherwise each row is the stored
   * record if it can be kept, and a fresh one that covers nothing if not; other records stay.
   */
  lemma ReadIs(db: Db, relay: string, kinds: set<nat>, selected: set<nat>, uuid: nat)
    ensures var generation := if db.registry.Some? then db.registry.value.generation else uuid;
            var registered := if db.registry.Some? then db.registry.value.kinds else selected;
            var (db', outcome) := ReadOf(db, relay, kinds, selected, uuid);
            && (outcome == Committed <==> forall kind | kind in kinds :: kind in registered)
            && (outcome != Committed ==> outcome == Invalidated && db' == db)
            && (outcome == Committed ==>
                  && db'.registry == Some(Registry(generation, registered))
                  && (forall kind | kind in kinds :: var k := Key(relay, kind);
                        && k in db'.records
                        && db'.records[k] == if k in db.records && Keepable(generation, registered, k, db.records[k]) then db.records[k]
                                             else Record(1, relay, kind, generation, []))
                  && forall k: Key | k.relay != relay || k.kind !in kinds ::
                       (k in db'.records <==> k in db.records) && (k in db.records ==> db'.records[k] == db.records[k]))
  {
    var reg := if db.registry.Some? then db.registry.value else Registry(uuid, selected);
    forall kind | kind in kinds
      ensures Key(relay, kind) in TouchedRecords(db, reg, relay, kinds)
      ensures TouchedRecords(db, reg, relay, kinds)[Key(relay, kind)] == RowFor(db, reg, Key(relay, kind))
    {
    }
    forall k | k in TouchedRecords(db, reg, relay, kinds) ensures k.relay == relay && k.kind in kinds { }
    forall k | k in db.records ensures Usable(reg, k, db.records[k]) <==> Keepable(reg.generation, reg.kinds, k, db.records[k]) {
      KeepableIs(reg, k, db.records[k]);
    }
    hide TouchedRecords, Usable, Keepable;
  }

  lemma KeepableIs(reg: Registry, k: Key, rec: Record)
    ensures Usable(reg, k, rec) <==> Keepable(reg.generation, reg.kinds, k, rec)
  {
  }

  /** A request's record is the one that was read: same database, kind still registered, record not replaced. */
  ghost predicate StillThere(db: Db, ref: Ref) {
    && db.registry.Some? && db.registry.value.generation == ref.generation && ref.key.kind in db.registry.value.kinds
    && ref.key in db.records && db.records[ref.key].generation == ref.generation
  }

  /** A batch commits exactly when every span is one of safe seconds, and every live request's records are still there; else nothing changes. */
  lemma CommitsExactly(db: Db, requests: seq<Request>)
    ensures var (db', outcome) := MarkBatchOf(db, requests);
            && (outcome == Committed <==>
                  && (forall r | r in requests :: 0 <= r.span.since <= r.span.until <= 9007199254740991)
                  && forall r, ref | r in requests && !r.aborted && ref in r.refs :: StillThere(db, ref))
            && (outcome != Committed ==> db' == db)
            && (outcome == InvalidInterval <==> exists r :: r in requests && !(0 <= r.span.since <= r.span.until <= 9007199254740991))
  {
    BatchCommits(db, requests);
    hide Marks, ActiveOf, ApplyMarks, AllCurrent;
    forall i | 0 <= i < |requests| ensures requests[i] in requests { }
    forall r | r in requests
      ensures RefsCurrent(db, r) <==> r.aborted || forall ref | ref in r.refs :: StillThere(db, ref)
    {
      forall j | 0 <= j < |r.refs| ensures r.refs[j] in r.refs { }
      assert forall ref :: RefCurrent(db, ref) <==> StillThere(db, ref);
      hide RefCurrent, StillThere;
    }
    hide RefsCurrent, StillThere;
  }
}
