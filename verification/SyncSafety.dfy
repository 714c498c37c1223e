/** Coverage never claims what was not stored: the invariant of every run. */
module SyncSafety {
  import opened Basics
  import opened Intervals
  import opened CoverageStore
  import opened CoverageLaws
  import opened Pages
  import opened Sync

  /** All of the owner's relay events of one kind and second are resolved, or the cell was reported as saturated. */
  ghost predicate Resolved(env: Env, s: State, owner: nat, k: Key, t: int)
    requires owner in s.dbs
  {
    || (k.relay, Cell(owner, k.kind, t)) in s.reported
    || forall e | e in env.events(k.relay) && CellOf(e) == Cell(owner, k.kind, t) && env.storable(e) :: e in s.dbs[owner].resolved
  }

  /** The promise of the stored coverage of one owner. */
  ghost predicate CoverageSound(env: Env, s: State, owner: nat)
    requires owner in s.dbs
  {
    forall k, t | k in s.dbs[owner].coverage.records && Covers(s.dbs[owner].coverage.records[k].intervals, t) ::
      Resolved(env, s, owner, k, t)
  }

  ghost predicate CurrentGeneration(s: State, owner: nat, generation: nat) {
    && owner in s.dbs
    && s.dbs[owner].coverage.registry.Some?
    && s.dbs[owner].coverage.registry.value.generation == generation
  }

  /** A waiting request claims only resolved seconds, unless the database was reset since its rows were read. */
  ghost predicate PendingSound(env: Env, s: State, p: Pending) {
    && p.owner in s.dbs
    && forall i | 0 <= i < |p.request.refs| ::
         var ref := p.request.refs[i];
         && ref.generation < s.nextGeneration
         && (CurrentGeneration(s, p.owner, ref.generation) ==>
               forall t | Contains(p.request.span, t) :: Resolved(env, s, p.owner, ref.key, t))
  }

  /** Events of the current page went into the database that the scan's rows belong to. */
  ghost predicate ScanSound(env: Env, s: State, scan: Scan) {
    && (forall i | 0 <= i < |scan.stack| :: WellFormed(scan.stack[i]))
    && scan.generations.Keys <= scan.members.Keys <= s.dbs.Keys
    && (forall owner | owner in scan.members :: scan.members[owner] < s.nextAccount)
    && forall owner | owner in scan.generations ::
         && scan.generations[owner] < s.nextGeneration
         && (scan.members[owner] in s.live && CurrentGeneration(s, owner, scan.generations[owner]) ==>
               forall e | e in scan.delivered && e.author == owner && InBox(CellOf(e), CurrentFilter(scan)) && env.storable(e) ::
                 e in s.dbs[owner].resolved)
  }

  ghost predicate Inv(env: Env, s: State) {
    && (forall account | account in s.live :: account < s.nextAccount)
    && (forall owner | owner in s.dbs :: NormalDb(s.dbs[owner].coverage) && CoverageSound(env, s, owner)
                                         && (s.dbs[owner].coverage.registry.Some? ==> s.dbs[owner].coverage.registry.value.generation < s.nextGeneration))
    && (forall p | p in s.queue :: PendingSound(env, s, p))
    && (forall id | id in s.scans :: ScanSound(env, s, s.scans[id]))
  }

  // ---- what may change without hurting anyone ----

  /**
   * `s'` has at least the resolved events and reports of `s`, and no database of `s'` is in a
   * generation that existed before unless it was in it already.
   */
  ghost predicate Grows(s: State, s': State) {
    && s'.dbs.Keys == s.dbs.Keys
    && s.reported <= s'.reported
    && s.nextGeneration <= s'.nextGeneration && s.nextAccount <= s'.nextAccount
    && (forall account | account in s'.live && account < s.nextAccount :: account in s.live)
    && forall owner | owner in s.dbs :: DbGrows(s, s', owner)
  }

  ghost predicate DbGrows(s: State, s': State, owner: nat)
    requires owner in s.dbs && owner in s'.dbs
  {
    && (forall g: nat | g < s.nextGeneration && CurrentGeneration(s', owner, g) :: CurrentGeneration(s, owner, g))
    && (s.dbs[owner].resolved <= s'.dbs[owner].resolved
        || (s'.dbs[owner].coverage.registry.None? && s'.dbs[owner].coverage.records == map[]))
  }

  lemma ResolvedGrows(env: Env, s: State, s': State, owner: nat, k: Key, t: int)
    requires owner in s.dbs && owner in s'.dbs
    requires s.reported <= s'.reported && s.dbs[owner].resolved <= s'.dbs[owner].resolved
    requires Resolved(env, s, owner, k, t)
    ensures Resolved(env, s', owner, k, t)
  {
  }

  lemma PendingGrows(env: Env, s: State, s': State, p: Pending)
    requires Grows(s, s') && PendingSound(env, s, p)
    ensures PendingSound(env, s', p)
  {
    forall i | 0 <= i < |p.request.refs| && CurrentGeneration(s', p.owner, p.request.refs[i].generation)
      ensures forall t | Contains(p.request.span, t) :: Resolved(env, s', p.owner, p.request.refs[i].key, t)
    {
      assert DbGrows(s, s', p.owner);
      forall t | Contains(p.request.span, t) ensures Resolved(env, s', p.owner, p.request.refs[i].key, t) {
        ResolvedGrows(env, s, s', p.owner, p.request.refs[i].key, t);
      }
    }
  }

  lemma ScanGrows(env: Env, s: State, s': State, scan: Scan)
    requires Grows(s, s') && ScanSound(env, s, scan)
    ensures ScanSound(env, s', scan)
  {
    forall owner | owner in scan.generations && scan.members[owner] in s'.live && CurrentGeneration(s', owner, scan.generations[owner])
      ensures s.dbs[owner].resolved <= s'.dbs[owner].resolved
      ensures scan.members[owner] in s.live && CurrentGeneration(s, owner, scan.generations[owner])
    {
      assert DbGrows(s, s', owner);
    }
  }

  /** A step keeps the invariant when it only grows, keeps every database sound, and adds only sound work. */
  lemma GrowKeeps(env: Env, s: State, s': State)
    requires Inv(env, s) && Grows(s, s')
    requires forall account | account in s'.live :: account < s'.nextAccount
    requires forall owner | owner in s'.dbs :: NormalDb(s'.dbs[owner].coverage) && CoverageSound(env, s', owner)
               && (s'.dbs[owner].coverage.registry.Some? ==> s'.dbs[owner].coverage.registry.value.generation < s'.nextGeneration)
    requires forall p | p in s'.queue && p !in s.queue :: PendingSound(env, s', p)
    requires forall id | id in s'.scans && !(id in s.scans && s.scans[id] == s'.scans[id]) :: ScanSound(env, s', s'.scans[id])
    ensures Inv(env, s')
  {
    hide ScanSound, CoverageSound, NormalDb, PendingSound, Grows;
    forall p | p in s'.queue ensures PendingSound(env, s', p) {
      if p in s.queue { PendingGrows(env, s, s', p); }
    }
    forall id | id in s'.scans ensures ScanSound(env, s', s'.scans[id]) {
      if id in s.scans && s.scans[id] == s'.scans[id] { ScanGrows(env, s, s', s.scans[id]); }
    }
  }

  /** Databases whose records are unchanged stay sound while things only grow. */
  lemma SameRecordsSound(env: Env, s: State, s': State, owner: nat)
    requires Inv(env, s) && Grows(s, s') && owner in s.dbs
    requires s'.dbs[owner].coverage.records == s.dbs[owner].coverage.records
    ensures NormalDb(s'.dbs[owner].coverage) && CoverageSound(env, s', owner)
  {
    assert DbGrows(s, s', owner);
    forall k, t | k in s'.dbs[owner].coverage.records && Covers(s'.dbs[owner].coverage.records[k].intervals, t)
      ensures Resolved(env, s', owner, k, t)
    {
      assert CoverageSound(env, s, owner);
      ResolvedGrows(env, s, s', owner, k, t);
    }
  }

  // ---- one lemma per kind of step ----

  lemma ReconcileKeeps(env: Env, s: State, owner: nat, kinds: set<nat>)
    requires Inv(env, s) && owner in s.dbs
    ensures Inv(env, Apply(env, s, Reconcile(owner, kinds)))
  {
    var s' := Apply(env, s, Reconcile(owner, kinds));
    forall other | other in s'.dbs ensures NormalDb(s'.dbs[other].coverage) && CoverageSound(env, s', other) {
      if other != owner { SameRecordsSound(env, s, s', other); }
      else {
        forall k, t | k in s'.dbs[owner].coverage.records && Covers(s'.dbs[owner].coverage.records[k].intervals, t)
          ensures Resolved(env, s', owner, k, t)
        {
          assert CoverageSound(env, s, owner);
          ResolvedGrows(env, s, s', owner, k, t);
        }
      }
    }
    GrowKeeps(env, s, s');
  }

  lemma ReadRowsKeeps(env: Env, s: State, owner: nat, relay: string, kinds: set<nat>, selected: set<nat>)
    requires Inv(env, s) && owner in s.dbs
    ensures Inv(env, Apply(env, s, ReadRows(owner, relay, kinds, selected)))
  {
    var s' := Apply(env, s, ReadRows(owner, relay, kinds, selected));
    var before, after := s.dbs[owner].coverage, s'.dbs[owner].coverage;
    forall k | k in after.records && !(k in before.records && before.records[k] == after.records[k])
      ensures after.records[k].intervals == []
    {
    }
    forall other | other in s'.dbs ensures NormalDb(s'.dbs[other].coverage) && CoverageSound(env, s', other) {
      if other != owner { SameRecordsSound(env, s, s', other); }
      else {
        forall k, t | k in after.records && Covers(after.records[k].intervals, t) ensures Resolved(env, s', owner, k, t) {
          assert CoverageSound(env, s, owner);
          ResolvedGrows(env, s, s', owner, k, t);
        }
      }
    }
    GrowKeeps(env, s, s');
  }

  lemma ResolveKeeps(env: Env, s: State, owner: nat, e: Event)
    requires Inv(env, s) && owner in s.dbs
    ensures Inv(env, WithResolved(s, owner, e)) && Grows(s, WithResolved(s, owner, e))
  {
    var s' := WithResolved(s, owner, e);
    forall other | other in s'.dbs ensures NormalDb(s'.dbs[other].coverage) && CoverageSound(env, s', other) {
      SameRecordsSound(env, s, s', other);
    }
    GrowKeeps(env, s, s');
  }

  /** Receiving one more event keeps the scan sound once a wanted event is stored. */
  lemma DeliveredScanSound(env: Env, s: State, scan: Scan, e: Event)
    requires ScanSound(env, s, scan)
    requires Persists(env, s, scan, e) ==> e in s.dbs[e.author].resolved
    ensures ScanSound(env, s, scan.(delivered := scan.delivered + [e]))
  {
    var next := scan.(delivered := scan.delivered + [e]);
    forall owner, d | owner in next.generations && next.members[owner] in s.live && CurrentGeneration(s, owner, next.generations[owner])
        && d in next.delivered && d.author == owner && InBox(CellOf(d), CurrentFilter(next)) && env.storable(d)
      ensures d in s.dbs[owner].resolved
    {
      if d !in scan.delivered { assert d == e; }
    }
  }

  lemma DeliverKeeps(env: Env, s: State, id: nat, e: Event)
    requires Inv(env, s) && InProgress(s, id)
    ensures Inv(env, Delivered(env, s, id, e))
  {
    hide ScanSound, CoverageSound, NormalDb, PendingSound, Grows;
    var scan := s.scans[id];
    var mid := if Persists(env, s, scan, e) then WithResolved(s, e.author, e) else s;
    if Persists(env, s, scan, e) { ResolveKeeps(env, s, e.author, e); }
    if !Persists(env, s, scan, e) { QueueGrows(s, mid); }
    ScanGrows(env, s, mid, scan);
    PersistedNow(env, s, mid, scan, e);
    DeliveredScanSound(env, mid, scan, e);
    var s' := Delivered(env, s, id, e);
    QueueGrows(mid, s');
    ScanGrows(env, mid, s', s'.scans[id]);
    QueueKeeps(env, mid, s', id);
  }

  lemma PersistedNow(env: Env, s: State, mid: State, scan: Scan, e: Event)
    requires Inv(env, s) && mid == if Persists(env, s, scan, e) then WithResolved(s, e.author, e) else s
    ensures Persists(env, mid, scan, e) ==> e in mid.dbs[e.author].resolved
  {
  }

  /** The requests queued for a page whose events all arrived claim only resolved seconds. */
  lemma CheckpointsSound(env: Env, s: State, scan: Scan, p: Pending)
    requires Inv(env, s) && ScanSound(env, s, scan) && scan.stack != []
    requires AllDelivered(env, scan) || (SingleCell(Top(scan)) && (scan.relay, Cell(Top(scan).authors[0], Top(scan).kinds[0], Top(scan).since)) in s.reported)
    requires p in Checkpoints(s, scan, Top(scan))
    ensures PendingSound(env, s, p)
  {
    var f := Top(scan);
    var owner :| owner in scan.generations && owner in scan.members && scan.members[owner] in s.live && owner in f.authors
      && p == RequestFor(scan, owner, f);
    forall i, t | 0 <= i < |p.request.refs| && CurrentGeneration(s, owner, p.request.refs[i].generation) && Contains(p.request.span, t)
      ensures Resolved(env, s, owner, p.request.refs[i].key, t)
    {
      var k := p.request.refs[i].key;
      assert k == Key(scan.relay, f.kinds[i]);
      if AllDelivered(env, scan) {
        forall e | e in env.events(scan.relay) && CellOf(e) == Cell(owner, f.kinds[i], t) && env.storable(e)
          ensures e in s.dbs[owner].resolved
        {
          assert InBox(CellOf(e), f);
        }
      }
    }
  }

  lemma QueueKeeps(env: Env, s: State, s': State, id: nat)
    requires Inv(env, s) && InProgress(s, id)
    requires s'.dbs == s.dbs && s'.live == s.live && s'.nextAccount == s.nextAccount && s'.nextGeneration == s.nextGeneration
    requires s.reported <= s'.reported
    requires forall p | p in s'.queue && p !in s.queue :: PendingSound(env, s', p)
    requires s'.scans.Keys == s.scans.Keys && forall other | other in s.scans && other != id :: s'.scans[other] == s.scans[other]
    requires ScanSound(env, s', s'.scans[id])
    ensures Inv(env, s')
  {
    hide ScanSound, CoverageSound, NormalDb, PendingSound;
    forall other | other in s'.dbs ensures NormalDb(s'.dbs[other].coverage) && CoverageSound(env, s', other) {
      SameRecordsSound(env, s, s', other);
    }
    GrowKeeps(env, s, s');
  }

  lemma PoppedSound(env: Env, s: State, s': State, scan: Scan, next: seq<Filter>)
    requires ScanSound(env, s, scan) && scan.stack != [] && forall i | 0 <= i < |next| :: WellFormed(next[i])
    requires s'.dbs.Keys == s.dbs.Keys && s'.nextAccount == s.nextAccount && s'.nextGeneration == s.nextGeneration
    ensures ScanSound(env, s', Popped(scan, next))
  {
    hide WellFormed;
  }

  lemma ConfirmKeeps(env: Env, s: State, id: nat)
    requires Inv(env, s) && InProgress(s, id) && AllDelivered(env, s.scans[id])
    ensures Inv(env, Sync.Confirmed(s, id))
  {
    hide ScanSound, CoverageSound, NormalDb, AllDelivered, PendingSound, Checkpoints, Popped, Grows;
    var s' := Sync.Confirmed(s, id);
    var scan := s.scans[id];
    QueueGrows(s, s');
    forall p | p in s'.queue && p !in s.queue ensures PendingSound(env, s', p) {
      CheckpointsSound(env, s, scan, p);
      PendingGrows(env, s, s', p);
    }
    PoppedSound(env, s, s', scan, []);
    QueueKeeps(env, s, s', id);
  }

  lemma QueueGrows(s: State, s': State)
    requires s'.dbs == s.dbs && s'.live == s.live && s'.nextAccount == s.nextAccount && s'.nextGeneration == s.nextGeneration
    requires s.reported <= s'.reported
    ensures Grows(s, s')
  {
  }

  lemma SaturateKeeps(env: Env, s: State, id: nat, oldest: Option<int>)
    requires Inv(env, s) && InProgress(s, id)
    ensures Inv(env, Saturated(s, id, oldest))
  {
    hide CoverageSound, NormalDb, PendingSound, Checkpoints, AllDelivered, SingleCell, Split, Popped, Grows;
    var scan := s.scans[id];
    var f := Top(scan);
    assert ScanSound(env, s, scan) && WellFormed(f);
    hide ScanSound, WellFormed;
    var s' := Saturated(s, id, oldest);
    QueueGrows(s, s');
    if SingleCell(f) {
      SaturatedCell(env, s, id);
      PoppedSound(env, s, s', scan, []);
    } else {
      SplitPartitions(f, oldest);
      PoppedSound(env, s, s', scan, [Split(f, oldest).1, Split(f, oldest).0]);
    }
    QueueKeeps(env, s, s', id);
  }

  /** A saturated cell is claimed because it is reported first. */
  lemma SaturatedCell(env: Env, s: State, id: nat)
    requires Inv(env, s) && InProgress(s, id) && SingleCell(Top(s.scans[id]))
    ensures forall p | p in Saturated(s, id, None).queue && p !in s.queue :: PendingSound(env, Saturated(s, id, None), p)
    ensures forall oldest :: Saturated(s, id, oldest) == Saturated(s, id, None)
  {
    hide ScanSound, CoverageSound, NormalDb, PendingSound, AllDelivered, Checkpoints, Popped, Grows;
    var scan := s.scans[id];
    var s' := Saturated(s, id, None);
    var mid := s.(reported := s'.reported);
    QueueGrows(s, mid);
    QueueGrows(mid, s');
    ScanGrows(env, s, mid, scan);
    QueueKeeps(env, s, mid, id);
    forall p | p in s'.queue && p !in s.queue ensures PendingSound(env, s', p) {
      CheckpointsAgree(s, mid, scan, p);
      CheckpointsSound(env, mid, scan, p);
      PendingGrows(env, mid, s', p);
    }
  }

  lemma CheckpointsAgree(s: State, s': State, scan: Scan, p: Pending)
    requires s'.live == s.live && scan.stack != []
    ensures p in Checkpoints(s, scan, Top(scan)) <==> p in Checkpoints(s', scan, Top(scan))
  {
  }

  lemma BatchKeepsRegistry(db: Db, batch: seq<Request>)
    ensures MarkBatchOf(db, batch).0.registry == db.registry
    ensures !MarkBatchOf(db, batch).1.Committed? ==> MarkBatchOf(db, batch).0 == db
  {
    hide Marks, ActiveOf, AllCurrent;
  }

  lemma CommitCoverage(env: Env, s: State, s': State, owner: nat, batch: seq<Request>)
    requires Inv(env, s) && Enabled(env, s, Commit(owner, batch)) && s' == Apply(env, s, Commit(owner, batch)) && Grows(s, s')
    ensures NormalDb(s'.dbs[owner].coverage) && CoverageSound(env, s', owner)
  {
    hide ScanSound, PendingSound, MarkBatchOf, NormalDb, Grows;
    var before, after := s.dbs[owner].coverage, s'.dbs[owner].coverage;
    BatchKeepsRegistry(before, batch);
    if MarkBatchOf(before, batch).1.Committed? {
      CommittedSound(env, s, owner, batch);
      forall k, t | k in after.records && Covers(after.records[k].intervals, t) ensures Resolved(env, s', owner, k, t) {
        ResolvedGrows(env, s, s', owner, k, t);
      }
    } else {
      SameRecordsSound(env, s, s', owner);
    }
  }

  lemma CommitKeeps(env: Env, s: State, owner: nat, batch: seq<Request>)
    requires Inv(env, s) && Enabled(env, s, Commit(owner, batch))
    ensures Inv(env, Apply(env, s, Commit(owner, batch)))
  {
    hide ScanSound, PendingSound, MarkBatchOf, NormalDb, CoverageSound;
    var s' := Apply(env, s, Commit(owner, batch));
    BatchKeepsRegistry(s.dbs[owner].coverage, batch);
    assert Grows(s, s');
    forall other | other in s'.dbs ensures NormalDb(s'.dbs[other].coverage) && CoverageSound(env, s', other) {
      if other != owner { SameRecordsSound(env, s, s', other); } else { CommitCoverage(env, s, s', owner, batch); }
    }
    GrowKeeps(env, s, s');
  }

  lemma CommittedSound(env: Env, s: State, owner: nat, batch: seq<Request>)
    requires Inv(env, s) && Enabled(env, s, Commit(owner, batch))
    requires MarkBatchOf(s.dbs[owner].coverage, batch).1.Committed?
    ensures var after := MarkBatchOf(s.dbs[owner].coverage, batch).0;
            && NormalDb(after)
            && forall k, t | k in after.records && Covers(after.records[k].intervals, t) :: Resolved(env, s, owner, k, t)
  {
    var before := s.dbs[owner].coverage;
    var marks := Marks(ActiveOf(batch));
    ActiveMarksValid(batch);
    ApplyKeepsNormal(before, marks);
    var after := ApplyMarks(before, marks);
    forall k, t | k in after.records && Covers(after.records[k].intervals, t) ensures Resolved(env, s, owner, k, t) {
      ApplyDenotes(before, marks, k);
      if Covers(before.records[k].intervals, t) {
        assert CoverageSound(env, s, owner);
      } else {
        ClaimResolved(env, s, owner, batch, k, t);
      }
    }
  }

  lemma ClaimResolved(env: Env, s: State, owner: nat, batch: seq<Request>, k: Key, t: int)
    requires Inv(env, s) && Enabled(env, s, Commit(owner, batch))
    requires AllCurrent(s.dbs[owner].coverage, Marks(ActiveOf(batch)))
    requires Claimed(Marks(ActiveOf(batch)), k, t)
    ensures Resolved(env, s, owner, k, t)
  {
    hide ScanSound, CoverageSound, NormalDb, Resolved;
    var marks := Marks(ActiveOf(batch));
    var i :| 0 <= i < |marks| && marks[i].ref.key == k && Contains(marks[i].span, t);
    assert RefCurrent(s.dbs[owner].coverage, marks[i].ref);
    MarksOfActive(batch, marks[i]);
    var r :| r in batch && marks[i].span == r.span && marks[i].ref in r.refs;
    var j :| 0 <= j < |r.refs| && r.refs[j] == marks[i].ref;
    assert PendingSound(env, s, Pending(owner, r));
    assert CurrentGeneration(s, owner, r.refs[j].generation);
  }

  lemma ResetKeeps(env: Env, s: State, owner: nat)
    requires Inv(env, s) && owner in s.dbs
    ensures Inv(env, Apply(env, s, Reset(owner)))
  {
    var s' := Apply(env, s, Reset(owner));
    forall other | other in s'.dbs ensures NormalDb(s'.dbs[other].coverage) && CoverageSound(env, s', other) {
      if other != owner { SameRecordsSound(env, s, s', other); }
    }
    GrowKeeps(env, s, s');
  }

  /** Steps that touch no database and add no work. */
  lemma QuietKeeps(env: Env, s: State, step: Step)
    requires Inv(env, s) && Enabled(env, s, step)
    requires step.Activate? || step.Deactivate? || step.StartScan? || step.Abandon? || step.Forget? || step.Crash?
    ensures Inv(env, Apply(env, s, step))
  {
    hide CoverageSound, NormalDb, PendingSound;
    var s' := Apply(env, s, step);
    forall other | other in s'.dbs ensures NormalDb(s'.dbs[other].coverage) && CoverageSound(env, s', other) {
      SameRecordsSound(env, s, s', other);
    }
    GrowKeeps(env, s, s');
  }

  lemma StepKeeps(env: Env, s: State, step: Step, s': State)
    requires Inv(env, s) && Next(env, s, step, s')
    ensures Inv(env, s')
  {
    hide Inv;
    match step
    case Reconcile(owner, kinds) => ReconcileKeeps(env, s, owner, kinds);
    case ReadRows(owner, relay, kinds, selected) => ReadRowsKeeps(env, s, owner, relay, kinds, selected);
    case Deliver(id, e) => DeliverKeeps(env, s, id, e);
    case Confirm(id) => ConfirmKeeps(env, s, id);
    case LiveProgress(id) => ConfirmKeeps(env, s, id);
    case Saturate(id, oldest) => SaturateKeeps(env, s, id, oldest);
    case StoreElsewhere(owner, e) => ResolveKeeps(env, s, owner, e);
    case Commit(owner, batch) => CommitKeeps(env, s, owner, batch);
    case Reset(owner) => ResetKeeps(env, s, owner);
    case _ => QuietKeeps(env, s, step);
  }

  /**
   * In every state of every run, every second inside a stored coverage interval has all of the owner's
   * relay events of that kind durably resolved, except single cells that were reported as saturated.
   */
  lemma {:induction false} SyncSound(env: Env, states: seq<State>, steps: seq<Step>, n: nat)
    requires IsRun(env, states, steps) && n < |states|
    ensures Inv(env, states[n])
    ensures forall owner, k, t | owner in states[n].dbs && k in states[n].dbs[owner].coverage.records
                && Covers(states[n].dbs[owner].coverage.records[k].intervals, t) :: Resolved(env, states[n], owner, k, t)
  {
    if n == 0 {
      assert Inv(env, states[0]);
    } else {
      SyncSound(env, states, steps, n - 1);
      StepKeeps(env, states[n - 1], steps[n - 1], states[n]);
    }
    forall owner, k, t | owner in states[n].dbs && k in states[n].dbs[owner].coverage.records
                && Covers(states[n].dbs[owner].coverage.records[k].intervals, t)
      ensures Resolved(env, states[n], owner, k, t)
    {
      assert CoverageSound(env, states[n], owner);
    }
  }
}
