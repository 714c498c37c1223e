/**
 * Account history sync as a state machine over every step that can interleave:
 * reading rows, storing events one by one, finishing or splitting pages, committing
 * batches, aborting, failing, deactivating accounts, crashing and resetting databases.
 */
module Sync {
  import opened Basics
  import opened Intervals
  import opened CoverageStore
  import opened CoverageLaws
  import opened Pages

  /** What no step changes: each relay's events, and which events an account keeps. */
  datatype Env = Env(events: string -> set<Event>, storable: Event -> bool)

  /** One owner's database: coverage records, and the events durably resolved (stored, duplicate, superseded, ignored or blocked). */
  datatype OwnerDb = OwnerDb(coverage: Db, resolved: set<Event>)

  /** A scan in memory: rows were read under `generations`; the last filter of `stack` is being read. */
  datatype Scan = Scan(relay: string, members: map<nat, nat>, generations: map<nat, nat>, stack: seq<Filter>, delivered: seq<Event>)

  /** A checkpoint request waiting in memory for the owner's next batch. */
  datatype Pending = Pending(owner: nat, request: Request)

  datatype State = State(
    dbs: map<nat, OwnerDb>,
    live: set<nat>,                // identities of the account objects that are active
    nextAccount: nat,              // an identity is never reused
    scans: map<nat, Scan>,
    queue: set<Pending>,
    reported: set<(string, Cell)>, // saturated cells the diagnostic named
    nextGeneration: nat)

  datatype Step =
    | Activate
    | Deactivate(account: nat)
    | Reconcile(owner: nat, kinds: set<nat>)
    | ReadRows(owner: nat, relay: string, kinds: set<nat>, selected: set<nat>)
    | StartScan(id: nat, scan: Scan)
    | Deliver(id: nat, event: Event)
    | Confirm(id: nat)
    | LiveProgress(id: nat)
    | Saturate(id: nat, oldest: Option<int>)
    | Abandon(id: nat)
    | StoreElsewhere(owner: nat, event: Event)
    | Commit(owner: nat, batch: seq<Request>)
    | Forget(pending: Pending)
    | Reset(owner: nat)
    | Crash

  function Top(scan: Scan): Filter
    requires scan.stack != []
  {
    scan.stack[|scan.stack| - 1]
  }

  function RefsFor(relay: string, kinds: seq<nat>, generation: nat): (r: seq<Ref>)
    ensures |r| == |kinds| && forall i | 0 <= i < |kinds| :: r[i] == Ref(Key(relay, kinds[i]), generation)
  {
    seq(|kinds|, i requires 0 <= i < |kinds| => Ref(Key(relay, kinds[i]), generation))
  }

  ghost function RequestFor(scan: Scan, owner: nat, f: Filter): Pending
    requires owner in scan.generations
  {
    Pending(owner, Request(RefsFor(scan.relay, f.kinds, scan.generations[owner]), Interval(f.since, f.until), false))
  }

  /** `checkpoint`: one request per account that is still active and among the authors. */
  ghost function Checkpoints(s: State, scan: Scan, f: Filter): set<Pending> {
    set owner | owner in scan.generations && owner in scan.members && scan.members[owner] in s.live && owner in f.authors
      :: RequestFor(scan, owner, f)
  }

  /** `persist` stores an event when its account is active and the filter asked for it. */
  ghost predicate Persists(env: Env, s: State, scan: Scan, e: Event) {
    && e.author in scan.members && scan.members[e.author] in s.live
    && InBox(CellOf(e), CurrentFilter(scan)) && env.storable(e)
    && e.author in s.dbs
  }

  ghost function CurrentFilter(scan: Scan): Filter {
    if scan.stack == [] then Filter([], [], 0, 0) else Top(scan)
  }

  /** One step of the system. */
  ghost predicate Next(env: Env, s: State, step: Step, s': State) {
    Enabled(env, s, step) && s' == Apply(env, s, step)
  }

  /** Nothing stored, nothing claimed, nothing running. */
  ghost predicate Initial(s: State) {
    && (forall owner | owner in s.dbs :: s.dbs[owner] == OwnerDb(Db(None, map[]), {}))
    && s.live == {} && s.scans == map[] && s.queue == {} && s.reported == {}
  }

  ghost predicate IsRun(env: Env, states: seq<State>, steps: seq<Step>) {
    && |states| == |steps| + 1
    && Initial(states[0])
    && forall i | 0 <= i < |steps| :: Next(env, states[i], steps[i], states[i + 1])
  }

  ghost function WithResolved(s: State, owner: nat, e: Event): State
    requires owner in s.dbs
  {
    var db := s.dbs[owner];
    s.(dbs := s.dbs[owner := db.(resolved := db.resolved + {e})])
  }

  ghost function WithCoverage(s: State, owner: nat, coverage: Db): State
    requires owner in s.dbs
  {
    s.(dbs := s.dbs[owner := s.dbs[owner].(coverage := coverage)])
  }

  ghost predicate InProgress(s: State, id: nat) {
    id in s.scans && s.scans[id].stack != []
  }

  /** Every event of the relay that the current page asks for arrived. */
  ghost predicate AllDelivered(env: Env, scan: Scan)
    requires scan.stack != []
  {
    forall e | e in env.events(scan.relay) && InBox(CellOf(e), Top(scan)) :: e in scan.delivered
  }

  ghost predicate Enabled(env: Env, s: State, step: Step) {
    match step
    case Reconcile(owner, _) => owner in s.dbs
    case ReadRows(owner, _, _, _) => owner in s.dbs
    // Rows were read just before, possibly in a generation that is gone by now.
    case StartScan(id, scan) =>
      && id !in s.scans && scan.stack != [] && scan.delivered == []
      && (forall i | 0 <= i < |scan.stack| :: WellFormed(scan.stack[i]))
      && scan.generations.Keys <= scan.members.Keys <= s.dbs.Keys
      && (forall owner | owner in scan.members :: scan.members[owner] < s.nextAccount)
      && forall owner | owner in scan.generations :: scan.generations[owner] < s.nextGeneration
    case Deliver(id, _) => InProgress(s, id)
    // EOSE below the page limit, from a relay that is honest about what that means.
    case Confirm(id) =>
      InProgress(s, id) && |s.scans[id].delivered| < PAGE_SIZE
      && Honest(env.events(s.scans[id].relay), Top(s.scans[id]), Answer(s.scans[id].delivered, Eose))
    // The live feed promises that everything in a window was delivered, however much it was.
    case LiveProgress(id) => InProgress(s, id) && AllDelivered(env, s.scans[id])
    // A full page, or one that the relay ended early.
    case Saturate(id, _) => InProgress(s, id)
    case Abandon(id) => id in s.scans
    case StoreElsewhere(owner, _) => owner in s.dbs
    case Commit(owner, batch) => owner in s.dbs && forall i | 0 <= i < |batch| :: Pending(owner, batch[i]) in s.queue
    case Reset(owner) => owner in s.dbs
    case _ => true
  }

  ghost function Apply(env: Env, s: State, step: Step): State
    requires Enabled(env, s, step)
  {
    match step
    case Activate => s.(live := s.live + {s.nextAccount}, nextAccount := s.nextAccount + 1)
    case Deactivate(account) => s.(live := s.live - {account})
    case Reconcile(owner, kinds) =>
      WithCoverage(s, owner, ReconcileOf(s.dbs[owner].coverage, kinds, s.nextGeneration)).(nextGeneration := s.nextGeneration + 1)
    case ReadRows(owner, relay, kinds, selected) =>
      WithCoverage(s, owner, ReadOf(s.dbs[owner].coverage, relay, kinds, selected, s.nextGeneration).0).(nextGeneration := s.nextGeneration + 1)
    case StartScan(id, scan) => s.(scans := s.scans[id := scan])
    case Deliver(id, e) => Delivered(env, s, id, e)
    case Confirm(id) => Confirmed(s, id)
    case LiveProgress(id) => Confirmed(s, id)
    case Saturate(id, oldest) => Saturated(s, id, oldest)
    case Abandon(id) => s.(scans := s.scans - {id})
    case StoreElsewhere(owner, e) => WithResolved(s, owner, e)
    case Commit(owner, batch) =>
      WithCoverage(s, owner, MarkBatchOf(s.dbs[owner].coverage, batch).0)
        .(queue := set p | p in s.queue && !(p.owner == owner && p.request in batch))
    case Forget(p) => s.(queue := s.queue - {p})
    case Reset(owner) => s.(dbs := s.dbs[owner := OwnerDb(Db(None, map[]), {})])
    case Crash => s.(live := {}, scans := map[], queue := {})
  }

  ghost function Popped(scan: Scan, next: seq<Filter>): Scan
    requires scan.stack != []
  {
    scan.(stack := scan.stack[..|scan.stack| - 1] + next, delivered := [])
  }

  ghost function Delivered(env: Env, s: State, id: nat, e: Event): State
    requires InProgress(s, id)
  {
    var scan := s.scans[id];
    var stored := if Persists(env, s, scan, e) then WithResolved(s, e.author, e) else s;
    stored.(scans := s.scans[id := scan.(delivered := scan.delivered + [e])])
  }

  ghost function Confirmed(s: State, id: nat): State
    requires InProgress(s, id)
  {
    var scan := s.scans[id];
    s.(queue := s.queue + Checkpoints(s, scan, Top(scan)), scans := s.scans[id := Popped(scan, [])])
  }

  /** A full page: split it, or accept a single author, kind and second with a diagnostic. */
  ghost function Saturated(s: State, id: nat, oldest: Option<int>): State
    requires InProgress(s, id)
  {
    var scan := s.scans[id];
    var f := Top(scan);
    if SingleCell(f) then
      s.(reported := s.reported + {(scan.relay, Cell(f.authors[0], f.kinds[0], f.since))},
         queue := s.queue + Checkpoints(s, scan, f), scans := s.scans[id := Popped(scan, [])])
    else
      var (newer, older) := Split(f, oldest);
      s.(scans := s.scans[id := Popped(scan, [older, newer])])
  }
}
