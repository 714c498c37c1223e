/** What the engine claims: every page that was read to its end, for every account that takes part, and no page is lost. */
module SyncClaims {
  import opened Basics
  import opened Intervals
  import opened CoverageStore
  import opened CoverageLaws
  import opened Pages
  import opened Sync
  import Scans

  /** The account takes part in the scan: it was read with a generation, its object is active, and the page asks for its events. */
  ghost predicate TakesPart(s: State, scan: Scan, f: Filter, owner: nat) {
    owner in scan.generations && owner in scan.members && scan.members[owner] in s.live && owner in f.authors
  }

  /** A step that ends the reading of the current page, well or at a single cell that cannot be divided. */
  ghost predicate EndsPage(s: State, step: Step) {
    match step
    case Confirm(id) => InProgress(s, id)
    case LiveProgress(id) => InProgress(s, id)
    case Saturate(id, _) =>
      InProgress(s, id) && |Top(s.scans[id]).authors| == 1 && |Top(s.scans[id]).kinds| == 1 && Top(s.scans[id]).since == Top(s.scans[id]).until
    case _ => false
  }

  ghost function ScanOf(step: Step): nat {
    match step
    case Confirm(id) => id
    case LiveProgress(id) => id
    case Saturate(id, _) => id
    case _ => 0
  }

  /** A request for one account: the page's kinds at the scan's relay, in the generation that was read, over the page's seconds. */
  ghost predicate Claims(p: Pending, owner: nat, relay: string, generation: nat, f: Filter) {
    && p.owner == owner && !p.request.aborted && p.request.span.since == f.since && p.request.span.until == f.until
    && |p.request.refs| == |f.kinds|
    && forall i | 0 <= i < |f.kinds| ::
         p.request.refs[i].key.relay == relay && p.request.refs[i].key.kind == f.kinds[i] && p.request.refs[i].generation == generation
  }

  /**
   * The end of a page queues exactly one request for each account that takes part, and for no other; it takes the page off
   * the scan, and changes nothing else in the queue, the databases and the other scans.
   */
  lemma PageIsClaimed(env: Env, s: State, step: Step)
    requires Enabled(env, s, step) && EndsPage(s, step)
    ensures var (s', id) := (Apply(env, s, step), ScanOf(step));
            var scan, f := s.scans[id], Top(s.scans[id]);
            && (forall p :: p in s'.queue <==> p in s.queue || exists owner ::
                  TakesPart(s, scan, f, owner) && Claims(p, owner, scan.relay, scan.generations[owner], f))
            && (forall owner | TakesPart(s, scan, f, owner) ::
                  exists p :: p in s'.queue && Claims(p, owner, scan.relay, scan.generations[owner], f))
            && s'.scans == s.scans[id := scan.(stack := scan.stack[..|scan.stack| - 1], delivered := [])]
            && s'.dbs == s.dbs && s'.live == s.live
  {
    var (s', id) := (Apply(env, s, step), ScanOf(step));
    var scan, f := s.scans[id], Top(s.scans[id]);
    assert scan.stack[..|scan.stack| - 1] + [] == scan.stack[..|scan.stack| - 1];
    forall p, owner | TakesPart(s, scan, f, owner)
      ensures Claims(p, owner, scan.relay, scan.generations[owner], f) <==> p == RequestFor(scan, owner, f)
    {
      ClaimIs(scan, owner, f, p);
    }
    forall owner | TakesPart(s, scan, f, owner) ensures exists p :: p in s'.queue && Claims(p, owner, scan.relay, scan.generations[owner], f) {
      assert RequestFor(scan, owner, f) in Checkpoints(s, scan, f);
    }
    forall p ensures p in Checkpoints(s, scan, f) <==> exists owner ::
        TakesPart(s, scan, f, owner) && Claims(p, owner, scan.relay, scan.generations[owner], f)
    {
      hide Claims, RequestFor;
    }
    hide Claims, RequestFor, Checkpoints;
  }

  /** There is only one such request, and it is the one that a checkpoint of the rectangle stands for. */
  lemma ClaimIs(scan: Scan, owner: nat, f: Filter, p: Pending)
    requires owner in scan.generations
    ensures Claims(p, owner, scan.relay, scan.generations[owner], f) <==> p == RequestFor(scan, owner, f)
    ensures RequestFor(scan, owner, f) == Pending(owner, Scans.RequestOf(scan.relay, scan.generations[owner], f))
  {
    var r := RequestFor(scan, owner, f);
    if Claims(p, owner, scan.relay, scan.generations[owner], f) {
      assert p.request.refs == r.request.refs;
    }
  }

  /**
   * An event that arrives is stored exactly for an author whose account takes part in the scan and is active, if the page asks
   * for it and the store keeps such events; it is remembered as delivered in any case.
   */
  lemma DeliveryIsStored(env: Env, s: State, id: nat, e: Event)
    requires InProgress(s, id)
    ensures Enabled(env, s, Deliver(id, e))
    ensures var s' := Apply(env, s, Deliver(id, e));
            var scan, f := s.scans[id], Top(s.scans[id]);
            && s'.scans == s.scans[id := scan.(delivered := scan.delivered + [e])] && s'.queue == s.queue && s'.live == s.live
            && s'.dbs.Keys == s.dbs.Keys
            && forall owner | owner in s.dbs ::
                 && s'.dbs[owner].coverage == s.dbs[owner].coverage
                 && s'.dbs[owner].resolved
                    == if owner == e.author && owner in scan.members && scan.members[owner] in s.live && env.storable(e)
                          && owner in f.authors && e.kind in f.kinds && f.since <= e.createdAt <= f.until
                       then s.dbs[owner].resolved + {e} else s.dbs[owner].resolved
  {
  }

  /**
   * The other steps of an account: it becomes active under an identity never used before, or inactive; its database registers
   * kinds, hands out rows, or learns an event from elsewhere. Nothing else changes.
   */
  lemma AccountStepsAre(env: Env, s: State, account: nat, owner: nat, relay: string, kinds: set<nat>, selected: set<nat>, e: Event, id: nat, scan: Scan)
    ensures Apply(env, s, Activate) == s.(live := s.live + {s.nextAccount}, nextAccount := s.nextAccount + 1)
    ensures Apply(env, s, Deactivate(account)) == s.(live := s.live - {account})
    ensures owner in s.dbs ==>
              var db := s.dbs[owner];
              && Enabled(env, s, Reconcile(owner, kinds)) && Enabled(env, s, ReadRows(owner, relay, kinds, selected))
              && Enabled(env, s, StoreElsewhere(owner, e))
              && Apply(env, s, Reconcile(owner, kinds))
                   == s.(dbs := s.dbs[owner := db.(coverage := ReconcileOf(db.coverage, kinds, s.nextGeneration))], nextGeneration := s.nextGeneration + 1)
              && Apply(env, s, ReadRows(owner, relay, kinds, selected))
                   == s.(dbs := s.dbs[owner := db.(coverage := ReadOf(db.coverage, relay, kinds, selected, s.nextGeneration).0)],
                         nextGeneration := s.nextGeneration + 1)
              && Apply(env, s, StoreElsewhere(owner, e)) == s.(dbs := s.dbs[owner := db.(resolved := db.resolved + {e})])
    ensures Enabled(env, s, StartScan(id, scan)) ==> Apply(env, s, StartScan(id, scan)) == s.(scans := s.scans[id := scan])
  {
    hide ReconcileOf, ReadOf;
  }

  /** What else can happen to a claim or a scan: one claim is forgotten, one scan abandoned, everything in memory lost, one database emptied. */
  lemma LossesAre(env: Env, s: State, p: Pending, id: nat, owner: nat)
    ensures Apply(env, s, Forget(p)) == s.(queue := s.queue - {p})
    ensures id in s.scans ==> Enabled(env, s, Abandon(id)) && Apply(env, s, Abandon(id)) == s.(scans := s.scans - {id})
    ensures var crashed := Apply(env, s, Crash);
            crashed.dbs == s.dbs && crashed.reported == s.reported && crashed.queue == {} && crashed.scans == map[] && crashed.live == {}
    ensures owner in s.dbs ==> Enabled(env, s, Reset(owner)) && Apply(env, s, Reset(owner)) == s.(dbs := s.dbs[owner := OwnerDb(Db(None, map[]), {})])
  {
  }

  // ---- no page is lost ----

  /** The pages of a scan that ended between two points of a run. */
  ghost function Ended(states: seq<State>, steps: seq<Step>, id: nat, m: nat, n: nat): seq<Filter>
    requires m <= n <= |steps| < |states|
    decreases n
  {
    if n == m then []
    else
      Ended(states, steps, id, m, n - 1)
      + if EndsPage(states[n - 1], steps[n - 1]) && ScanOf(steps[n - 1]) == id then [Top(states[n - 1].scans[id])] else []
  }

  /** The scan is in memory all the time: neither abandoned nor lost in a crash. */
  ghost predicate Lasts(states: seq<State>, id: nat, m: nat, n: nat)
    requires n < |states|
  {
    forall k | m <= k <= n :: id in states[k].scans
  }

  ghost predicate AllWell(fs: seq<Filter>) { forall i | 0 <= i < |fs| :: WellFormed(fs[i]) }

  lemma SplitStack(stack: seq<Filter>, oldest: Option<int>, c: Cell)
    requires stack != [] && AllWell(stack) && !SingleCell(stack[|stack| - 1])
    ensures var n := |stack| - 1;
            var (newer, older) := Split(stack[n], oldest);
            AllWell(stack[..n] + [older, newer]) && Hits(stack[..n] + [older, newer], c) == Hits(stack, c)
  {
    hide WellFormed, Hits, InBox, Split, SingleCell, Size, NotNewer;
    var n := |stack| - 1;
    var f := stack[n];
    var (newer, older) := Split(f, oldest);
    SplitPartitions(f, oldest);
    assert InBox(c, f) <==> InBox(c, newer) || InBox(c, older);
    assert !(InBox(c, newer) && InBox(c, older));
    assert stack == stack[..n] + [f];
    HitsConcat(stack[..n], [f], c);
    HitsConcat(stack[..n], [older, newer], c);
    HitsOfFew(older, newer, c);
    HitsOfFew(newer, older, c);
    HitsOfFew(f, f, c);
  }

  lemma PopStack(stack: seq<Filter>, c: Cell)
    requires stack != [] && AllWell(stack)
    ensures var n := |stack| - 1; AllWell(stack[..n]) && Hits(stack, c) == Hits(stack[..n], c) + Hits([stack[n]], c)
  {
    var n := |stack| - 1;
    assert stack == stack[..n] + [stack[n]];
    HitsConcat(stack[..n], [stack[n]], c);
  }

  /** The same scan, with its members, and this stack. */
  ghost predicate SameScan(scan: Scan, scan': Scan, stack: seq<Filter>) {
    scan'.relay == scan.relay && scan'.members == scan.members && scan'.generations == scan.generations && scan'.stack == stack
  }

  ghost predicate Divides(s: State, step: Step, id: nat) {
    step.Saturate? && step.id == id && InProgress(s, id) && !SingleCell(Top(s.scans[id]))
  }

  /** A step leaves a scan as it is, takes off its current page, or divides it. */
  lemma StepOfScan(env: Env, s: State, step: Step, id: nat)
    requires Enabled(env, s, step) && id in s.scans && id in Apply(env, s, step).scans
    ensures var scan, scan' := s.scans[id], Apply(env, s, step).scans[id];
            && (EndsPage(s, step) && ScanOf(step) == id ==> scan.stack != [] && SameScan(scan, scan', scan.stack[..|scan.stack| - 1]))
            && (Divides(s, step, id) ==>
                  var (newer, older) := Split(Top(scan), step.oldest);
                  SameScan(scan, scan', scan.stack[..|scan.stack| - 1] + [older, newer]))
            && (!(EndsPage(s, step) && ScanOf(step) == id) && !Divides(s, step, id) ==> SameScan(scan, scan', scan.stack))
  {
    hide WellFormed, Split, WithResolved, WithCoverage, MarkBatchOf, ReconcileOf, ReadOf, Checkpoints, Honest, AllDelivered, Persists;
    var scan := s.scans[id];
    match step {
      case Confirm(other) => { NoMore(s.scans[other]); hide Popped; }
      case LiveProgress(other) => { NoMore(s.scans[other]); hide Popped; }
      case Saturate(other, oldest) => { SaturatedScan(s, other, oldest); hide Popped, Saturated; }
      case Reconcile(owner, kinds) => { CoverageScans(s, owner, ReconcileOf(s.dbs[owner].coverage, kinds, s.nextGeneration)); }
      case ReadRows(owner, relay, kinds, selected) =>
        { CoverageScans(s, owner, ReadOf(s.dbs[owner].coverage, relay, kinds, selected, s.nextGeneration).0); }
      case Commit(owner, batch) => { CoverageScans(s, owner, MarkBatchOf(s.dbs[owner].coverage, batch).0); }
      case StoreElsewhere(owner, e) => { ResolvedScans(s, owner, e); }
      case Deliver(other, e) => { if e.author in s.dbs { ResolvedScans(s, e.author, e); } }
      case _ => { }
    }
  }

  lemma NoMore(scan: Scan)
    requires scan.stack != []
    ensures SameScan(scan, Popped(scan, []), scan.stack[..|scan.stack| - 1])
  {
    assert scan.stack[..|scan.stack| - 1] + [] == scan.stack[..|scan.stack| - 1];
  }

  /** A saturated page is divided, unless it is a single cell. */
  lemma SaturatedScan(s: State, id: nat, oldest: Option<int>)
    requires InProgress(s, id)
    ensures id in Saturated(s, id, oldest).scans
    ensures forall other | other in s.scans && other != id ::
              other in Saturated(s, id, oldest).scans && Saturated(s, id, oldest).scans[other] == s.scans[other]
    ensures var scan := s.scans[id];
            var (newer, older) := if SingleCell(Top(scan)) then (Top(scan), Top(scan)) else Split(Top(scan), oldest);
            var rest := scan.stack[..|scan.stack| - 1];
            SameScan(scan, Saturated(s, id, oldest).scans[id], if SingleCell(Top(scan)) then rest else rest + [older, newer])
  {
    NoMore(s.scans[id]);
    hide Checkpoints, Split;
  }

  lemma CoverageScans(s: State, owner: nat, coverage: Db)
    requires owner in s.dbs
    ensures WithCoverage(s, owner, coverage).scans == s.scans
  {
  }

  lemma ResolvedScans(s: State, owner: nat, e: Event)
    requires owner in s.dbs
    ensures WithResolved(s, owner, e).scans == s.scans
  {
  }

  /** What one step does to the rectangles of a scan. */
  lemma StepConserves(env: Env, s: State, step: Step, id: nat, c: Cell)
    requires Enabled(env, s, step) && id in s.scans && id in Apply(env, s, step).scans && AllWell(s.scans[id].stack)
    ensures var scan, scan' := s.scans[id], Apply(env, s, step).scans[id];
            && AllWell(scan'.stack) && SameScan(scan, scan', scan'.stack)
            && (EndsPage(s, step) && ScanOf(step) == id ==>
                  scan.stack != [] && WellFormed(Top(scan)) && Hits(scan.stack, c) == Hits(scan'.stack, c) + Hits([Top(scan)], c))
            && (!(EndsPage(s, step) && ScanOf(step) == id) ==> Hits(scan.stack, c) == Hits(scan'.stack, c))
  {
    StepOfScan(env, s, step, id);
    var scan := s.scans[id];
    if scan.stack != [] { PopStack(scan.stack, c); }
    if Divides(s, step, id) { SplitStack(scan.stack, step.oldest, c); }
    hide WellFormed, Hits, Split, Apply, Enabled, EndsPage, SingleCell;
  }

  /**
   * Over every run, as long as a scan lasts, its cells are in the pages that ended or still to be read, each exactly as often as
   * at the beginning: no split loses a cell, and no cell is read twice.
   */
  lemma {:induction false} ScanConserves(env: Env, states: seq<State>, steps: seq<Step>, id: nat, m: nat, n: nat, c: Cell)
    requires IsRun(env, states, steps) && m <= n < |states| && Lasts(states, id, m, n) && AllWell(states[m].scans[id].stack)
    ensures Hits(states[m].scans[id].stack, c) == Hits(Ended(states, steps, id, m, n), c) + Hits(states[n].scans[id].stack, c)
    ensures AllWell(states[n].scans[id].stack) && AllWell(Ended(states, steps, id, m, n))
    ensures var scan, scan' := states[m].scans[id], states[n].scans[id];
            scan'.relay == scan.relay && scan'.members == scan.members && scan'.generations == scan.generations
    decreases n
  {
    hide Next, Hits, WellFormed, Apply, Enabled, EndsPage;
    if n > m {
      ScanConserves(env, states, steps, id, m, n - 1, c);
      assert Next(env, states[n - 1], steps[n - 1], states[n - 1 + 1]);
      hide IsRun;
      NextIs(env, states[n - 1], steps[n - 1], states[n]);
      StepConserves(env, states[n - 1], steps[n - 1], id, c);
      if EndsPage(states[n - 1], steps[n - 1]) && ScanOf(steps[n - 1]) == id {
        HitsConcat(Ended(states, steps, id, m, n - 1), [Top(states[n - 1].scans[id])], c);
      } else {
        assert Ended(states, steps, id, m, n) == Ended(states, steps, id, m, n - 1);
      }
    } else {
      assert Hits([], c) == 0 by { NoHits(c); }
    }
  }

  lemma NextIs(env: Env, s: State, step: Step, s': State)
    requires Next(env, s, step, s')
    ensures Enabled(env, s, step) && s' == Apply(env, s, step)
  {
  }

  lemma NoHits(c: Cell)
    ensures Hits([], c) == 0
  {
  }

  /** The account takes part whenever a page of the scan ends. */
  ghost predicate AlwaysTakesPart(states: seq<State>, steps: seq<Step>, id: nat, owner: nat, m: nat, n: nat)
    requires n <= |steps| < |states| && Lasts(states, id, m, n)
  {
    forall k | m <= k < n && EndsPage(states[k], steps[k]) && ScanOf(steps[k]) == id ::
      owner in states[k].scans[id].generations && owner in states[k].scans[id].members && states[k].scans[id].members[owner] in states[k].live
  }

  /** At this point of a run the page `f` of the scan ended. */
  ghost predicate EndedAt(states: seq<State>, steps: seq<Step>, id: nat, k: nat, f: Filter)
    requires k < |steps| < |states|
  {
    EndsPage(states[k], steps[k]) && ScanOf(steps[k]) == id && Top(states[k].scans[id]) == f
  }

  lemma {:induction false} EndedMember(states: seq<State>, steps: seq<Step>, id: nat, m: nat, n: nat, f: Filter)
    requires m <= n <= |steps| < |states|
    ensures f in Ended(states, steps, id, m, n) <==> exists k | m <= k < n :: EndedAt(states, steps, id, k, f)
    decreases n
  {
    if n > m {
      EndedMember(states, steps, id, m, n - 1, f);
      EndedLast(states, steps, id, m, n, f);
    }
    hide Ended, EndedAt;
  }

  lemma EndedLast(states: seq<State>, steps: seq<Step>, id: nat, m: nat, n: nat, f: Filter)
    requires m < n <= |steps| < |states|
    ensures f in Ended(states, steps, id, m, n) <==> f in Ended(states, steps, id, m, n - 1) || EndedAt(states, steps, id, n - 1, f)
  {
    hide EndsPage;
  }

  /** Every request that the checkpoints of the ended pages stand for was queued when its page ended. */
  lemma ScanIsClaimed(env: Env, states: seq<State>, steps: seq<Step>, id: nat, owner: nat, m: nat, n: nat, r: Request)
    requires IsRun(env, states, steps) && m <= n < |states| && Lasts(states, id, m, n) && AllWell(states[m].scans[id].stack)
    requires AlwaysTakesPart(states, steps, id, owner, m, n) && owner in states[m].scans[id].generations
    requires var scan := states[m].scans[id];
             r in Scans.Checkpointed(scan.relay, scan.generations[owner], owner, Ended(states, steps, id, m, n))
    ensures exists k | m < k <= n :: Pending(owner, r) in states[k].queue
  {
    var scan, ended := states[m].scans[id], Ended(states, steps, id, m, n);
    Scans.CheckpointedMember(scan.relay, scan.generations[owner], owner, ended, r);
    var i :| 0 <= i < |ended| && owner in ended[i].authors && r == Scans.RequestOf(scan.relay, scan.generations[owner], ended[i]);
    var f := ended[i];
    EndedMember(states, steps, id, m, n, f);
    var k :| m <= k < n && EndedAt(states, steps, id, k, f);
    ScanConserves(env, states, steps, id, m, k, Cell(0, 0, 0));
    assert Next(env, states[k], steps[k], states[k + 1]);
    PageIsClaimed(env, states[k], steps[k]);
    hide IsRun, Apply, Enabled, Ended, Scans.Checkpointed;
    var now := states[k].scans[id];
    assert TakesPart(states[k], now, f, owner);
    var p :| p in states[k + 1].queue && Claims(p, owner, now.relay, now.generations[owner], f);
    ClaimIs(now, owner, f, p);
    assert p == Pending(owner, r);
  }

  // ---- from claims to coverage ----

  /** Committing a batch with a page's request, when the batch is accepted, covers every cell of the page for the account. */
  lemma CommitCoversPage(env: Env, s: State, owner: nat, batch: seq<Request>, p: Pending, relay: string, generation: nat, f: Filter, c: Cell)
    requires Enabled(env, s, Commit(owner, batch)) && NormalDb(s.dbs[owner].coverage)
    requires Claims(p, owner, relay, generation, f) && p.request in batch
    requires forall r | r in batch && !r.aborted :: forall j | 0 <= j < |r.refs| :: RefCurrent(s.dbs[owner].coverage, r.refs[j])
    requires forall r | r in batch :: 0 <= r.span.since <= r.span.until <= MAX_SAFE
    requires InBox(c, f) && c.author == owner
    ensures var coverage := Apply(env, s, Commit(owner, batch)).dbs[owner].coverage;
            Key(relay, c.kind) in coverage.records && Covers(coverage.records[Key(relay, c.kind)].intervals, c.second)
  {
    var db := s.dbs[owner].coverage;
    BatchAccepted(db, batch);
    CommitApplies(env, s, owner, batch);
    hide Enabled, Apply, MarkBatchOf, NormalDb, RefCurrent;
    var i :| 0 <= i < |f.kinds| && f.kinds[i] == c.kind;
    var ref := p.request.refs[i];
    assert ref.key == Key(relay, c.kind) && RefCurrent(db, ref);
    CurrentIsStored(db, ref);
    Scans.BatchClaims(db, batch, p.request, ref, c.second);
  }

  lemma CommitApplies(env: Env, s: State, owner: nat, batch: seq<Request>)
    requires Enabled(env, s, Commit(owner, batch))
    ensures owner in s.dbs && owner in Apply(env, s, Commit(owner, batch)).dbs
    ensures Apply(env, s, Commit(owner, batch)).dbs[owner].coverage == MarkBatchOf(s.dbs[owner].coverage, batch).0
  {
    hide MarkBatchOf;
  }

  /** A batch is accepted when every span is one of safe seconds and every live request names current records. */
  lemma BatchAccepted(db: Db, batch: seq<Request>)
    requires forall r | r in batch :: 0 <= r.span.since <= r.span.until <= MAX_SAFE
    requires forall r | r in batch && !r.aborted :: forall j | 0 <= j < |r.refs| :: RefCurrent(db, r.refs[j])
    ensures MarkBatchOf(db, batch).1 == Committed
  {
    hide RefCurrent, Marks, ActiveOf, ApplyMarks;
    assert forall i | 0 <= i < |batch| :: batch[i] in batch;
    BatchCommits(db, batch);
    hide AllCurrent;
  }

  lemma CurrentIsStored(db: Db, ref: Ref)
    requires RefCurrent(db, ref)
    ensures ref.key in db.records
  {
  }

  /** A step that does not reset, re-register or re-read the account's own database. */
  ghost predicate Undisturbed(step: Step, owner: nat) {
    match step
    case Reset(other) => other != owner
    case Reconcile(other, _) => other != owner
    case ReadRows(other, _, _, _) => other != owner
    case _ => true
  }

  lemma StepGrows(env: Env, s: State, step: Step, owner: nat)
    requires Enabled(env, s, step) && owner in s.dbs && NormalDb(s.dbs[owner].coverage) && Undisturbed(step, owner)
    ensures owner in Apply(env, s, step).dbs && Scans.Grown(s.dbs[owner].coverage, Apply(env, s, step).dbs[owner].coverage)
  {
    var db := s.dbs[owner].coverage;
    Scans.SameGrown(db);
    hide NormalDb, RefCurrent, Scans.Grown, MarkBatchOf, ReconcileOf, ReadOf, Checkpoints, Split, Honest, AllDelivered, WellFormed;
    match step {
      case Commit(other, batch) => { Scans.BatchGrows(db, batch); }
      case _ => { }
    }
  }

  lemma {:induction false} RunGrows(env: Env, states: seq<State>, steps: seq<Step>, owner: nat, m: nat, n: nat)
    requires IsRun(env, states, steps) && m <= n < |states| && owner in states[m].dbs && NormalDb(states[m].dbs[owner].coverage)
    requires forall k | m <= k < n :: Undisturbed(steps[k], owner)
    ensures owner in states[n].dbs && NormalDb(states[n].dbs[owner].coverage)
    ensures Scans.Grown(states[m].dbs[owner].coverage, states[n].dbs[owner].coverage)
    decreases n
  {
    hide Next, NormalDb, RefCurrent, Apply, Enabled, Undisturbed;
    if n > m {
      RunGrows(env, states, steps, owner, m, n - 1);
      assert Next(env, states[n - 1], steps[n - 1], states[n - 1 + 1]) && Undisturbed(steps[n - 1], owner);
      hide IsRun;
      NextIs(env, states[n - 1], steps[n - 1], states[n]);
      StepGrows(env, states[n - 1], steps[n - 1], owner);
    } else {
      Scans.SameGrown(states[m].dbs[owner].coverage);
    }
  }

  /** Every claim of the scan for the account was in a batch that its database accepted. */
  ghost predicate ClaimsCommitted(states: seq<State>, steps: seq<Step>, requests: seq<Request>, owner: nat, m: nat, n: nat)
    requires m <= n <= |steps| < |states|
  {
    forall r | r in requests :: exists k | m <= k < n ::
      && steps[k].Commit? && steps[k].owner == owner && r in steps[k].batch
      && owner in states[k].dbs && MarkBatchOf(states[k].dbs[owner].coverage, steps[k].batch).1 == Committed
  }

  /**
   * The engine as a whole: when a scan has been read to its end, its account took part all along, each of its claims was
   * committed, and its database was not disturbed, the account's records cover every cell that the scan asked for.
   */
  lemma EngineCovers(env: Env, states: seq<State>, steps: seq<Step>, id: nat, owner: nat, m: nat, e: nat, n: nat, c: Cell)
    requires IsRun(env, states, steps) && m <= e <= n < |states| && Lasts(states, id, m, e) && AllWell(states[m].scans[id].stack)
    requires states[e].scans[id].stack == [] && AlwaysTakesPart(states, steps, id, owner, m, e)
    requires owner in states[m].scans[id].generations && owner in states[m].dbs && NormalDb(states[m].dbs[owner].coverage)
    requires forall k | m <= k < n :: Undisturbed(steps[k], owner)
    requires var scan := states[m].scans[id];
             ClaimsCommitted(states, steps, Scans.Checkpointed(scan.relay, scan.generations[owner], owner, Ended(states, steps, id, m, e)), owner, m, n)
    requires c.author == owner && Hits(states[m].scans[id].stack, c) >= 1
    requires Key(states[m].scans[id].relay, c.kind) in states[m].dbs[owner].coverage.records
    ensures owner in states[n].dbs
    ensures var coverage, key := states[n].dbs[owner].coverage, Key(states[m].scans[id].relay, c.kind);
            key in coverage.records && Covers(coverage.records[key].intervals, c.second)
  {
    hide Hits, Ended, AlwaysTakesPart, NormalDb, IsRun, AllWell, Undisturbed, MarkBatchOf, InBox, RefCurrent;
    RunSize(env, states, steps);
    var scan, ended := states[m].scans[id], Ended(states, steps, id, m, e);
    ScanConserves(env, states, steps, id, m, e, c);
    NoHits(c);
    Scans.HitsMember(ended, c);
    var i :| 0 <= i < |ended| && InBox(c, ended[i]);
    var r := Scans.RequestOf(scan.relay, scan.generations[owner], ended[i]);
    BoxAuthor(c, ended[i]);
    Scans.CheckpointedMember(scan.relay, scan.generations[owner], owner, ended, r);
    var k :| m <= k < n && steps[k].Commit? && steps[k].owner == owner && r in steps[k].batch && owner in states[k].dbs
      && MarkBatchOf(states[k].dbs[owner].coverage, steps[k].batch).1 == Committed;
    ClaimCovers(env, states, steps, owner, m, k, n, scan.relay, scan.generations[owner], ended[i], c);
  }

  lemma RunSize(env: Env, states: seq<State>, steps: seq<Step>)
    requires IsRun(env, states, steps)
    ensures |states| == |steps| + 1
  {
  }

  lemma BoxAuthor(c: Cell, f: Filter)
    requires InBox(c, f)
    ensures c.author in f.authors
  {
  }

  lemma ClaimCovers(env: Env, states: seq<State>, steps: seq<Step>, owner: nat, m: nat, k: nat, n: nat,
                    relay: string, generation: nat, f: Filter, c: Cell)
    requires IsRun(env, states, steps) && m <= k < n < |states| && owner in states[m].dbs && NormalDb(states[m].dbs[owner].coverage)
    requires forall k | m <= k < n :: Undisturbed(steps[k], owner)
    requires steps[k].Commit? && steps[k].owner == owner && owner in states[k].dbs && Scans.RequestOf(relay, generation, f) in steps[k].batch
    requires MarkBatchOf(states[k].dbs[owner].coverage, steps[k].batch).1 == Committed
    requires InBox(c, f) && Key(relay, c.kind) in states[m].dbs[owner].coverage.records
    ensures owner in states[n].dbs && Key(relay, c.kind) in states[n].dbs[owner].coverage.records
    ensures Covers(states[n].dbs[owner].coverage.records[Key(relay, c.kind)].intervals, c.second)
  {
    RunGrows(env, states, steps, owner, m, k);
    RunGrows(env, states, steps, owner, m, k + 1);
    RunGrows(env, states, steps, owner, k + 1, n);
    CommittedNow(env, states, steps, k, owner);
    hide IsRun, MarkBatchOf, RefCurrent, NormalDb, Undisturbed;
    var ref := Ref(Key(relay, c.kind), generation);
    Scans.RefMember(relay, generation, f, ref);
    Scans.BatchClaims(states[k].dbs[owner].coverage, steps[k].batch, Scans.RequestOf(relay, generation, f), ref, c.second);
  }

  lemma CommittedNow(env: Env, states: seq<State>, steps: seq<Step>, k: nat, owner: nat)
    requires IsRun(env, states, steps) && k < |steps| && steps[k].Commit? && steps[k].owner == owner && owner in states[k].dbs
    ensures owner in states[k + 1].dbs
    ensures states[k + 1].dbs[owner].coverage == MarkBatchOf(states[k].dbs[owner].coverage, steps[k].batch).0
  {
    assert Next(env, states[k], steps[k], states[k + 1]);
    hide MarkBatchOf;
  }
}
