/**
 * The vault request scheduler: two queues, four caps, deadlines, a re-entrancy guard.
 * Jobs are numbered in arrival order.
 */
module VaultQueue {
  import opened Basics

  const MAX_RUNNING := 5
  const MAX_NORMAL := 4
  const MAX_CHUNKS := 2
  const MAX_ARCHIVES := 2
  const MAX_PREFERRED := 3

  datatype Class = Class(priority: bool, chunk: bool, archive: bool)

  datatype Job = Job(class_: Class, deadline: Option<int>, done: bool)

  datatype Outcome = Replied | Early | Failed | TimedOut | Canceled | QueueClosed

  /** What `beforeSend` and `send` do when a job is dispatched: send it, answer at once, or throw. */
  datatype Verdict = Sent | AnsweredEarly | Threw

  /** The environment of one drain: what the clock shows at its n-th look, and each job's verdict. */
  datatype World = World(clock: nat -> int, verdict: nat -> Verdict)

  /** `settled` lists every resolved promise and `dispatched` every job handed to the vault, oldest first. */
  datatype State = State(
    normal: seq<nat>,
    priority: seq<nat>,
    running: seq<nat>,
    jobs: map<nat, Job>,
    port: Option<nat>,
    closed: bool,
    draining: bool,
    preferred: nat,
    settled: seq<(nat, Outcome)>,
    dispatched: seq<nat>)

  function Without(s: seq<nat>, x: nat): (r: seq<nat>)
    ensures x !in s ==> r == s
    ensures |r| <= |s| && (x in s ==> |r| == |s| - 1)
  {
    if s == [] then [] else if s[0] == x then s[1..] else [s[0]] + Without(s[1..], x)
  }

  function ClassOf(jobs: map<nat, Job>, id: nat): Class {
    if id in jobs then jobs[id].class_ else Class(false, false, false)
  }

  function Chunks(jobs: map<nat, Job>, ids: seq<nat>): nat {
    if ids == [] then 0 else (if ClassOf(jobs, ids[0]).chunk then 1 else 0) + Chunks(jobs, ids[1..])
  }

  function Archives(jobs: map<nat, Job>, ids: seq<nat>): nat {
    if ids == [] then 0 else (if ClassOf(jobs, ids[0]).archive then 1 else 0) + Archives(jobs, ids[1..])
  }

  function Normals(jobs: map<nat, Job>, ids: seq<nat>): nat {
    if ids == [] then 0 else (if ClassOf(jobs, ids[0]).priority then 0 else 1) + Normals(jobs, ids[1..])
  }

  /** The chunk and archive caps admit a class while this many of each are running. */
  predicate Admits(chunks: nat, archives: nat, c: Class) {
    (!c.chunk || chunks < MAX_CHUNKS) && (!c.archive || archives < MAX_ARCHIVES)
  }

  /** First job of a queue that the caps admit. */
  function FirstAdmitted(jobs: map<nat, Job>, queue: seq<nat>, chunks: nat, archives: nat): Option<nat> {
    if queue == [] then None
    else if Admits(chunks, archives, ClassOf(jobs, queue[0])) then Some(queue[0])
    else FirstAdmitted(jobs, queue[1..], chunks, archives)
  }

  /** The next job to dispatch, if any. */
  function Pick(q: State): Option<nat> {
    var chunks, archives := Chunks(q.jobs, q.running), Archives(q.jobs, q.running);
    var normal := if Normals(q.jobs, q.running) < MAX_NORMAL then FirstAdmitted(q.jobs, q.normal, chunks, archives) else None;
    var priority := FirstAdmitted(q.jobs, q.priority, chunks, archives);
    if normal.Some? && (priority.None? || q.preferred >= MAX_PREFERRED) then normal
    else if priority.Some? then priority else normal
  }

  /** `finish` up to the drain it triggers: a job settles once, and leaves every queue. */
  function Settle(q: State, id: nat, outcome: Outcome): State {
    if id !in q.jobs || q.jobs[id].done then q
    else
      q.(jobs := q.jobs[id := q.jobs[id].(done := true)],
         running := Without(q.running, id),
         normal := if q.jobs[id].class_.priority then q.normal else Without(q.normal, id),
         priority := if q.jobs[id].class_.priority then Without(q.priority, id) else q.priority,
         settled := q.settled + [(id, outcome)])
  }

  function Start(q: State, id: nat): State {
    q.(normal := if ClassOf(q.jobs, id).priority then q.normal else Without(q.normal, id),
       priority := if ClassOf(q.jobs, id).priority then Without(q.priority, id) else q.priority,
       running := q.running + [id],
       preferred := if !ClassOf(q.jobs, id).priority then 0 else if q.preferred < MAX_PREFERRED then q.preferred + 1 else MAX_PREFERRED,
       dispatched := q.dispatched + [id])
  }

  predicate Expired(q: State, id: nat, now: int) {
    id in q.jobs && q.jobs[id].deadline.Some? && q.jobs[id].deadline.value <= now
  }

  /** One round of the drain loop for the picked job. */
  function Serve(q: State, id: nat, now: int, verdict: Verdict): State {
    if Expired(q, id, now) then Settle(q, id, TimedOut)
    else
      match verdict
      case Sent => Start(q, id)
      case AnsweredEarly => Settle(Start(q, id), id, Early)
      case Threw => Settle(Start(q, id), id, Failed)
  }

  predicate CanServe(q: State) {
    |q.running| < MAX_RUNNING && Pick(q).Some?
  }

  function Waiting(q: State): nat { |q.normal| + |q.priority| }

  /** The drain loop; `n` counts its rounds, and each round shortens the waiting queues. */
  function Loop(q: State, w: World, n: nat): State
    requires Sound(q)
    decreases Waiting(q)
  {
    if !CanServe(q) then q
    else
      ServeKeeps(q, w.clock(n), w.verdict(Pick(q).value));
      Loop(Serve(q, Pick(q).value, w.clock(n), w.verdict(Pick(q).value)), w, n + 1)
  }

  function DrainOf(q: State, w: World): State
    requires Sound(q)
  {
    if q.draining || q.closed || q.port.None? then q
    else Loop(q.(draining := true), w, 0).(draining := false)
  }

  function FinishOf(q: State, id: nat, outcome: Outcome, w: World): State
    requires Sound(q)
  {
    if id !in q.jobs || q.jobs[id].done then q
    else
      SettleKeeps(q, id, outcome);
      DrainOf(Settle(q, id, outcome), w)
  }

  // ---- the invariant ----

  ghost predicate Ascending(s: seq<nat>) {
    forall i, j | 0 <= i < j < |s| :: s[i] < s[j]
  }

  ghost predicate SameClass(q: State, a: nat, b: nat) {
    ClassOf(q.jobs, a) == ClassOf(q.jobs, b)
  }

  /** Each unfinished job is in exactly one of the two queues or running, each finished one in none. */
  ghost predicate Placed(q: State) {
    && Ascending(q.normal) && Ascending(q.priority) && NoDup(q.running)
    && (forall id | id in q.normal :: id in q.jobs && !q.jobs[id].done && !q.jobs[id].class_.priority && id !in q.running)
    && (forall id | id in q.priority :: id in q.jobs && !q.jobs[id].done && q.jobs[id].class_.priority && id !in q.running)
    && (forall id | id in q.running :: id in q.jobs && !q.jobs[id].done)
    && (forall id | id in q.jobs && !q.jobs[id].done :: id in q.normal || id in q.priority || id in q.running)
  }

  /** Every settled promise settled once, and exactly the finished jobs settled. */
  ghost predicate SettledOnce(q: State) {
    && (forall i, j | 0 <= i < j < |q.settled| :: q.settled[i].0 != q.settled[j].0)
    && (forall i | 0 <= i < |q.settled| :: q.settled[i].0 in q.jobs && q.jobs[q.settled[i].0].done)
    && (forall id | id in q.jobs && q.jobs[id].done :: exists i | 0 <= i < |q.settled| :: q.settled[i].0 == id)
  }

  ghost predicate WithinCaps(q: State) {
    && |q.running| <= MAX_RUNNING
    && Normals(q.jobs, q.running) <= MAX_NORMAL
    && Chunks(q.jobs, q.running) <= MAX_CHUNKS
    && Archives(q.jobs, q.running) <= MAX_ARCHIVES
  }

  /** Within a class, everything dispatched arrived before everything that still waits. */
  ghost predicate InOrder(q: State) {
    && (forall i | 0 <= i < |q.dispatched| :: q.dispatched[i] in q.jobs)
    && ByArrival(q.jobs, q.dispatched) && Ahead(q.jobs, q.dispatched, q.normal) && Ahead(q.jobs, q.dispatched, q.priority)
  }

  ghost predicate ByArrival(jobs: map<nat, Job>, ids: seq<nat>) {
    forall i, j | 0 <= i < j < |ids| && ClassOf(jobs, ids[i]) == ClassOf(jobs, ids[j]) :: ids[i] < ids[j]
  }

  ghost predicate Ahead(jobs: map<nat, Job>, ids: seq<nat>, waiting: seq<nat>) {
    forall i, other | 0 <= i < |ids| && other in waiting && ClassOf(jobs, ids[i]) == ClassOf(jobs, other) :: ids[i] < other
  }

  lemma ByArrivalAppend(jobs: map<nat, Job>, ids: seq<nat>, id: nat, waiting: seq<nat>)
    requires ByArrival(jobs, ids) && Ahead(jobs, ids, waiting) && id in waiting
    ensures ByArrival(jobs, ids + [id])
  {
    hide ClassOf;
  }

  lemma AheadAppend(jobs: map<nat, Job>, ids: seq<nat>, id: nat, waiting: seq<nat>, still: seq<nat>)
    requires Ahead(jobs, ids, waiting) && forall x | x in still :: x in waiting && (ClassOf(jobs, x) == ClassOf(jobs, id) ==> id < x)
    ensures Ahead(jobs, ids + [id], still)
  {
    hide ClassOf;
  }

  /** Order is about classes and about who still waits. */
  lemma OrderKeeps(jobs: map<nat, Job>, jobs': map<nat, Job>, ids: seq<nat>, waiting: seq<nat>, still: seq<nat>)
    requires forall i | 0 <= i < |ids| :: ClassOf(jobs', ids[i]) == ClassOf(jobs, ids[i])
    requires forall x | x in still :: x in waiting && ClassOf(jobs', x) == ClassOf(jobs, x)
    ensures ByArrival(jobs, ids) ==> ByArrival(jobs', ids)
    ensures Ahead(jobs, ids, waiting) ==> Ahead(jobs', ids, still)
  {
    hide ClassOf;
  }

  /** Length of the run of priority jobs at the end of the dispatch history. */
  function PriorityRun(jobs: map<nat, Job>, dispatched: seq<nat>): nat {
    if dispatched == [] || !ClassOf(jobs, dispatched[|dispatched| - 1]).priority then 0
    else 1 + PriorityRun(jobs, dispatched[..|dispatched| - 1])
  }

  ghost predicate Sound(q: State) {
    && Placed(q) && SettledOnce(q) && WithinCaps(q) && InOrder(q)
    && q.preferred == (if PriorityRun(q.jobs, q.dispatched) < MAX_PREFERRED then PriorityRun(q.jobs, q.dispatched) else MAX_PREFERRED)
  }

  /** The port, the flags and the set of known jobs are untouched. */
  ghost predicate SameShell(q: State, r: State) {
    r.jobs.Keys == q.jobs.Keys && r.port == q.port && r.closed == q.closed && r.draining == q.draining
  }

  ghost predicate SameJobs(q: State, r: State) {
    r.jobs == q.jobs && r.normal == q.normal && r.priority == q.priority && r.running == q.running
    && r.settled == q.settled && r.dispatched == q.dispatched && r.preferred == q.preferred
  }

  lemma SameJobsPlaced(q: State, r: State)
    requires SameJobs(q, r) && Placed(q)
    ensures Placed(r)
  {
  }

  lemma SameJobsSettled(q: State, r: State)
    requires SameJobs(q, r) && SettledOnce(q)
    ensures SettledOnce(r)
  {
    assert r.settled == q.settled && r.jobs == q.jobs;
  }

  lemma SameJobsInOrder(q: State, r: State)
    requires SameJobs(q, r) && InOrder(q)
    ensures InOrder(r)
  {
  }

  lemma SameJobsSound(q: State, r: State)
    requires SameJobs(q, r) && Sound(q)
    ensures Sound(r)
  {
    hide Placed, SettledOnce, InOrder;
    SameJobsPlaced(q, r);
    SameJobsSettled(q, r);
    SameJobsInOrder(q, r);
  }

  /** Soundness is about jobs, not about the port or the flags. */
  lemma SoundIgnoresShell(q: State, port: Option<nat>, closed: bool, draining: bool)
    requires Sound(q)
    ensures Sound(q.(port := port)) && Sound(q.(closed := closed)) && Sound(q.(draining := draining))
  {
    hide Sound;
    SameJobsSound(q, q.(port := port));
    SameJobsSound(q, q.(closed := closed));
    SameJobsSound(q, q.(draining := draining));
  }

  // ---- what a round keeps ----

  lemma {:induction false} WithoutMember(s: seq<nat>, x: nat)
    requires NoDup(s)
    ensures NoDup(Without(s, x)) && forall y :: y in Without(s, x) <==> y in s && y != x
  {
    if s != [] {
      assert s == [s[0]] + s[1..];
      if s[0] != x {
        WithoutMember(s[1..], x);
        assert s[0] !in Without(s[1..], x);
      }
    }
  }

  lemma {:induction false} WithoutAscends(s: seq<nat>, x: nat)
    requires Ascending(s)
    ensures NoDup(s) && Ascending(Without(s, x))
  {
    if s != [] && s[0] != x {
      assert Ascending(s[1..]);
      WithoutAscends(s[1..], x);
      WithoutMember(s[1..], x);
      assert Without(s, x) == [s[0]] + Without(s[1..], x);
      hide Without;
      forall i | 0 <= i < |Without(s[1..], x)| ensures s[0] < Without(s[1..], x)[i] {
        assert Without(s[1..], x)[i] in s[1..];
      }
    }
  }

  /** Classes never change, so the counts over running jobs depend only on the list. */
  lemma {:induction false} CountsKeep(jobs: map<nat, Job>, jobs': map<nat, Job>, ids: seq<nat>)
    requires forall id | id in ids :: ClassOf(jobs', id) == ClassOf(jobs, id)
    ensures Chunks(jobs', ids) == Chunks(jobs, ids) && Archives(jobs', ids) == Archives(jobs, ids) && Normals(jobs', ids) == Normals(jobs, ids)
  {
    if ids != [] { CountsKeep(jobs, jobs', ids[1..]); }
  }

  lemma {:induction false} CountsWithout(jobs: map<nat, Job>, ids: seq<nat>, x: nat)
    ensures Chunks(jobs, Without(ids, x)) <= Chunks(jobs, ids)
    ensures Archives(jobs, Without(ids, x)) <= Archives(jobs, ids)
    ensures Normals(jobs, Without(ids, x)) <= Normals(jobs, ids)
  {
    if ids != [] && ids[0] != x { CountsWithout(jobs, ids[1..], x); }
  }

  lemma {:induction false} CountsAppend(jobs: map<nat, Job>, ids: seq<nat>, x: nat)
    ensures Chunks(jobs, ids + [x]) == Chunks(jobs, ids) + if ClassOf(jobs, x).chunk then 1 else 0
    ensures Archives(jobs, ids + [x]) == Archives(jobs, ids) + if ClassOf(jobs, x).archive then 1 else 0
    ensures Normals(jobs, ids + [x]) == Normals(jobs, ids) + if ClassOf(jobs, x).priority then 0 else 1
  {
    if ids == [] {
      assert [x][1..] == [];
    } else {
      assert (ids + [x])[1..] == ids[1..] + [x];
      CountsAppend(jobs, ids[1..], x);
    }
  }

  lemma {:induction false} RunKeeps(jobs: map<nat, Job>, jobs': map<nat, Job>, dispatched: seq<nat>)
    requires forall id :: ClassOf(jobs', id) == ClassOf(jobs, id)
    ensures PriorityRun(jobs', dispatched) == PriorityRun(jobs, dispatched)
  {
    if dispatched != [] { RunKeeps(jobs, jobs', dispatched[..|dispatched| - 1]); }
  }

  lemma SettlePlaces(q: State, id: nat, outcome: Outcome)
    requires Placed(q) && id in q.jobs && !q.jobs[id].done
    ensures Placed(Settle(q, id, outcome))
  {
    WithoutAscends(q.normal, id);
    WithoutAscends(q.priority, id);
    WithoutMember(q.normal, id);
    WithoutMember(q.priority, id);
    WithoutMember(q.running, id);
  }

  lemma SettleClasses(q: State, id: nat, outcome: Outcome, x: nat)
    ensures ClassOf(Settle(q, id, outcome).jobs, x) == ClassOf(q.jobs, x)
  {
  }

  lemma SettleWaiting(q: State, id: nat, outcome: Outcome, x: nat)
    requires Placed(q)
    ensures var r := Settle(q, id, outcome); (x in r.normal ==> x in q.normal) && (x in r.priority ==> x in q.priority)
    ensures var r := Settle(q, id, outcome); r.running == q.running || r.running == Without(q.running, id)
  {
    WithoutAscends(q.normal, id);
    WithoutAscends(q.priority, id);
    WithoutMember(q.normal, id);
    WithoutMember(q.priority, id);
  }

  lemma SettleOrders(q: State, id: nat, outcome: Outcome)
    requires Placed(q) && InOrder(q)
    ensures InOrder(Settle(q, id, outcome))
  {
    var r := Settle(q, id, outcome);
    assert r.dispatched == q.dispatched && q.jobs.Keys <= r.jobs.Keys;
    hide Placed, Settle, ByArrival, Ahead;
    forall x: nat
      ensures ClassOf(r.jobs, x) == ClassOf(q.jobs, x)
      ensures (x in r.normal ==> x in q.normal) && (x in r.priority ==> x in q.priority)
    {
      SettleClasses(q, id, outcome, x);
      SettleWaiting(q, id, outcome, x);
    }
    OrderKeeps(q.jobs, r.jobs, q.dispatched, q.normal, r.normal);
    OrderKeeps(q.jobs, r.jobs, q.dispatched, q.priority, r.priority);
  }

  lemma SettleCaps(q: State, id: nat, outcome: Outcome)
    requires Placed(q) && WithinCaps(q)
    ensures WithinCaps(Settle(q, id, outcome))
  {
    var r := Settle(q, id, outcome);
    forall x: nat ensures ClassOf(r.jobs, x) == ClassOf(q.jobs, x) { SettleClasses(q, id, outcome, x); }
    SettleWaiting(q, id, outcome, 0);
    CountsWithout(q.jobs, q.running, id);
    CountsKeep(q.jobs, r.jobs, r.running);
    hide Placed, Settle, Chunks, Archives, Normals, ClassOf;
  }

  /** Settling any job, waiting or running, for any reason, keeps the queue sound. */
  lemma SettleKeeps(q: State, id: nat, outcome: Outcome)
    requires Sound(q)
    ensures Sound(Settle(q, id, outcome))
  {
    hide Placed, SettledOnce, WithinCaps, InOrder;
    var r := Settle(q, id, outcome);
    if id in q.jobs && !q.jobs[id].done {
      SettlePlaces(q, id, outcome);
      SettleOrders(q, id, outcome);
      SettleCaps(q, id, outcome);
      SettledMore(q, r, id, outcome);
      RunKeeps(q.jobs, r.jobs, q.dispatched);
    }
  }

  lemma SettledMore(q: State, r: State, id: nat, outcome: Outcome)
    requires SettledOnce(q) && id in q.jobs && !q.jobs[id].done
    requires r.settled == q.settled + [(id, outcome)] && r.jobs == q.jobs[id := q.jobs[id].(done := true)]
    ensures SettledOnce(r)
  {
    forall x | x in r.jobs && r.jobs[x].done ensures exists i | 0 <= i < |r.settled| :: r.settled[i].0 == x {
      if x == id {
        assert r.settled[|q.settled|].0 == x;
      } else {
        var i :| 0 <= i < |q.settled| && q.settled[i].0 == x;
        assert r.settled[i].0 == x;
      }
    }
  }

  lemma {:induction false} FirstAdmittedIsFirst(jobs: map<nat, Job>, queue: seq<nat>, chunks: nat, archives: nat)
    ensures var f := FirstAdmitted(jobs, queue, chunks, archives);
            && (f.Some? ==> f.value in queue && Admits(chunks, archives, ClassOf(jobs, f.value)))
            && (f.None? ==> forall id | id in queue :: !Admits(chunks, archives, ClassOf(jobs, id)))
            && (f.Some? && Ascending(queue) ==> forall id | id in queue && ClassOf(jobs, id) == ClassOf(jobs, f.value) :: f.value <= id)
  {
    if queue != [] && !Admits(chunks, archives, ClassOf(jobs, queue[0])) {
      FirstAdmittedIsFirst(jobs, queue[1..], chunks, archives);
    }
  }

  /** The picked job waits, is admitted by every cap, and is the oldest of its class that waits. */
  lemma PickIsDispatchable(q: State)
    requires Sound(q) && Pick(q).Some?
    ensures var id := Pick(q).value;
            && (id in q.normal || id in q.priority)
            && Dispatchable(q, id)
            && forall other | (other in q.normal || other in q.priority) && SameClass(q, id, other) :: id <= other
  {
    var chunks, archives := Chunks(q.jobs, q.running), Archives(q.jobs, q.running);
    FirstAdmittedIsFirst(q.jobs, q.normal, chunks, archives);
    FirstAdmittedIsFirst(q.jobs, q.priority, chunks, archives);
  }

  /** No cap forbids the job now. */
  ghost predicate Dispatchable(q: State, id: nat) {
    && Admits(Chunks(q.jobs, q.running), Archives(q.jobs, q.running), ClassOf(q.jobs, id))
    && (!ClassOf(q.jobs, id).priority ==> Normals(q.jobs, q.running) < MAX_NORMAL)
  }

  lemma StartPlaces(q: State, id: nat)
    requires Placed(q) && (id in q.normal || id in q.priority)
    ensures Placed(Start(q, id)) && Waiting(Start(q, id)) < Waiting(q)
  {
    WithoutAscends(q.normal, id);
    WithoutAscends(q.priority, id);
    WithoutMember(q.normal, id);
    WithoutMember(q.priority, id);
  }

  lemma StillWaiting(q: State, id: nat, other: nat)
    requires Placed(q)
    ensures var r := Start(q, id); (other in r.normal ==> other in q.normal) && (other in r.priority ==> other in q.priority)
    ensures id in q.normal || id in q.priority ==> id !in Start(q, id).normal && id !in Start(q, id).priority
  {
    WithoutAscends(q.normal, id);
    WithoutAscends(q.priority, id);
    WithoutMember(q.normal, id);
    WithoutMember(q.priority, id);
  }

  lemma StartOrders(q: State, id: nat)
    requires Placed(q) && InOrder(q) && (id in q.normal || id in q.priority)
    requires forall other | (other in q.normal || other in q.priority) && SameClass(q, id, other) :: id <= other
    ensures InOrder(Start(q, id))
  {
    var r := Start(q, id);
    assert id in q.jobs && r.dispatched == q.dispatched + [id] && r.jobs == q.jobs;
    assert if ClassOf(q.jobs, id).priority then id in q.priority else id in q.normal;
    hide Placed, Start, ByArrival, Ahead, ClassOf;
    forall x: nat
      ensures (x in r.normal ==> x in q.normal && x != id) && (x in r.priority ==> x in q.priority && x != id)
    {
      StillWaiting(q, id, x);
    }
    ByArrivalAppend(q.jobs, q.dispatched, id, if ClassOf(q.jobs, id).priority then q.priority else q.normal);
    forall x | (x in r.normal || x in r.priority) && ClassOf(q.jobs, x) == ClassOf(q.jobs, id) ensures id < x {
      assert SameClass(q, id, x);
    }
    AheadAppend(q.jobs, q.dispatched, id, q.normal, r.normal);
    AheadAppend(q.jobs, q.dispatched, id, q.priority, r.priority);
  }

  lemma StartPrefers(q: State, id: nat)
    ensures var run, run' := PriorityRun(q.jobs, q.dispatched), PriorityRun(q.jobs, q.dispatched + [id]);
            run' == if ClassOf(q.jobs, id).priority then run + 1 else 0
  {
    var more := q.dispatched + [id];
    assert more[..|more| - 1] == q.dispatched;
  }

  lemma StartKeeps(q: State, id: nat)
    requires Sound(q) && |q.running| < MAX_RUNNING && (id in q.normal || id in q.priority) && Dispatchable(q, id)
    requires forall other | (other in q.normal || other in q.priority) && SameClass(q, id, other) :: id <= other
    ensures Sound(Start(q, id)) && Waiting(Start(q, id)) < Waiting(q)
  {
    hide Placed, SettledOnce, InOrder, PriorityRun, ClassOf;
    StartPlaces(q, id);
    StartOrders(q, id);
    StartCaps(q, id);
    StartSettles(q, id);
    StartPrefers(q, id);
    hide WithinCaps, Dispatchable;
  }

  lemma StartSettles(q: State, id: nat)
    requires SettledOnce(q)
    ensures SettledOnce(Start(q, id))
  {
  }

  lemma StartCaps(q: State, id: nat)
    requires WithinCaps(q) && |q.running| < MAX_RUNNING && Dispatchable(q, id)
    ensures WithinCaps(Start(q, id))
  {
    CountsAppend(q.jobs, q.running, id);
    hide Chunks, Archives, Normals, ClassOf;
  }

  lemma WaitingIsUnfinished(q: State, id: nat)
    requires Sound(q) && (id in q.normal || id in q.priority)
    ensures id in q.jobs && !q.jobs[id].done
    ensures if q.jobs[id].class_.priority then id in q.priority else id in q.normal
  {
  }

  lemma SettleWaits(q: State, id: nat, outcome: Outcome)
    ensures var r := Settle(q, id, outcome);
            && Waiting(r) <= Waiting(q) && SameShell(q, r)
            && (id in q.jobs && !q.jobs[id].done && (if q.jobs[id].class_.priority then id in q.priority else id in q.normal)
                ==> Waiting(r) < Waiting(q))
  {
  }

  /** A round keeps the queue sound and always takes one job out of the waiting queues. */
  lemma ServeKeeps(q: State, now: int, verdict: Verdict)
    requires Sound(q) && CanServe(q)
    ensures Sound(Serve(q, Pick(q).value, now, verdict))
    ensures Waiting(Serve(q, Pick(q).value, now, verdict)) < Waiting(q)
    ensures SameShell(q, Serve(q, Pick(q).value, now, verdict))
  {
    hide Sound, Pick, Settle, Dispatchable;
    var id := Pick(q).value;
    PickIsDispatchable(q);
    WaitingIsUnfinished(q, id);
    SettleWaits(q, id, TimedOut);
    SettleWaits(Start(q, id), id, Early);
    SettleWaits(Start(q, id), id, Failed);
    if Expired(q, id, now) {
      SettleKeeps(q, id, TimedOut);
    } else {
      StartKeeps(q, id);
      SettleKeeps(Start(q, id), id, Early);
      SettleKeeps(Start(q, id), id, Failed);
    }
  }

  // ---- draining ----

  lemma {:induction false} LoopKeeps(q: State, w: World, n: nat)
    requires Sound(q)
    ensures Sound(Loop(q, w, n)) && !CanServe(Loop(q, w, n)) && SameShell(q, Loop(q, w, n))
    decreases Waiting(q)
  {
    hide Sound, Serve, Pick;
    if CanServe(q) {
      ServeKeeps(q, w.clock(n), w.verdict(Pick(q).value));
      LoopKeeps(Serve(q, Pick(q).value, w.clock(n), w.verdict(Pick(q).value)), w, n + 1);
    }
  }

  lemma DrainKeeps(q: State, w: World)
    requires Sound(q)
    ensures Sound(DrainOf(q, w)) && SameShell(q, DrainOf(q, w))
  {
    hide Sound, Loop, CanServe;
    if !(q.draining || q.closed || q.port.None?) {
      SoundIgnoresShell(q, None, false, true);
      LoopKeeps(q.(draining := true), w, 0);
      SoundIgnoresShell(Loop(q.(draining := true), w, 0), None, false, false);
    }
  }

  lemma NothingPicked(q: State, id: nat)
    requires Sound(q) && Pick(q).None? && (id in q.normal || id in q.priority)
    ensures !Dispatchable(q, id)
  {
    var chunks, archives := Chunks(q.jobs, q.running), Archives(q.jobs, q.running);
    FirstAdmittedIsFirst(q.jobs, q.normal, chunks, archives);
    FirstAdmittedIsFirst(q.jobs, q.priority, chunks, archives);
  }

  /** A drain that may run stops only at five running jobs or when the caps forbid every waiting job. */
  lemma DrainStopsWhenStuck(q: State, w: World)
    requires Sound(q) && !q.draining && !q.closed && q.port.Some?
    ensures var r := DrainOf(q, w);
            |r.running| >= MAX_RUNNING || forall id | id in r.normal || id in r.priority :: !Dispatchable(r, id)
  {
    hide Sound, Loop, Pick;
    SoundIgnoresShell(q, None, false, true);
    LoopKeeps(q.(draining := true), w, 0);
    var r := Loop(q.(draining := true), w, 0);
    if |r.running| < MAX_RUNNING {
      forall id | id in r.normal || id in r.priority ensures !Dispatchable(DrainOf(q, w), id) {
        NothingPicked(r, id);
      }
    }
  }

  /** After three priority dispatches in a row, a normal job that the caps admit is served next. */
  lemma NormalIsNotStarved(q: State, id: nat)
    requires Sound(q) && id in q.normal && Dispatchable(q, id)
    requires PriorityRun(q.jobs, q.dispatched) >= 3
    ensures Pick(q).Some? && Pick(q).value in q.normal
  {
    var chunks, archives := Chunks(q.jobs, q.running), Archives(q.jobs, q.running);
    FirstAdmittedIsFirst(q.jobs, q.normal, chunks, archives);
  }

  /**
   * Priority jobs come first: unless the last three dispatches were priority jobs and a normal job could be next, a
   * priority job that the caps admit is picked.
   */
  lemma PriorityFirst(q: State, id: nat)
    requires Sound(q) && id in q.priority && Dispatchable(q, id)
    requires PriorityRun(q.jobs, q.dispatched) < 3 || forall other | other in q.normal :: !Dispatchable(q, other)
    ensures Pick(q).Some? && Pick(q).value in q.priority
  {
    var chunks, archives := Chunks(q.jobs, q.running), Archives(q.jobs, q.running);
    FirstAdmittedIsFirst(q.jobs, q.normal, chunks, archives);
    FirstAdmittedIsFirst(q.jobs, q.priority, chunks, archives);
  }

  /** Jobs of one class are dispatched in arrival order, and none overtakes a waiting one. */
  lemma DispatchedInOrder(q: State, i: nat, j: nat)
    requires Sound(q) && i < j < |q.dispatched| && SameClass(q, q.dispatched[i], q.dispatched[j])
    ensures q.dispatched[i] < q.dispatched[j]
    ensures forall id | (id in q.normal || id in q.priority) && SameClass(q, id, q.dispatched[j]) :: q.dispatched[j] < id
  {
  }

  // ---- the public operations ----

  datatype Event =
    | Ask(class_: Class, deadline: Option<int>)
    | Reply(id: nat, outcome: Outcome)
    | TimerFires(id: nat)
    | SetPort(next: Option<nat>)
    | Cancel
    | Close

  function Enqueue(q: State, id: nat, c: Class, deadline: Option<int>): State {
    q.(jobs := q.jobs[id := Job(c, deadline, false)],
       normal := if c.priority then q.normal else q.normal + [id],
       priority := if c.priority then q.priority + [id] else q.priority)
  }

  /** Without a port `finish` drains nothing, so canceling settles a snapshot one by one. */
  function SettleAll(q: State, ids: seq<nat>, outcome: Outcome): State
    decreases |ids|
  {
    if ids == [] then q else SettleAll(Settle(q, ids[0], outcome), ids[1..], outcome)
  }

  function CancelOf(q: State, outcome: Outcome): State {
    SettleAll(q.(port := None), q.running + q.normal + q.priority, outcome).(port := q.port)
  }

  ghost predicate NewId(q: State, id: nat) {
    forall other | other in q.jobs :: other < id
  }

  function SetPortOf(q: State, next: Option<nat>, w: World): State
    requires Sound(q)
  {
    if next == q.port || q.closed then q
    else
      hide Sound, CancelOf;
      var canceled := if q.port.Some? then CancelOf(q, Canceled) else q;
      CancelKeeps(q, Canceled);
      SoundIgnoresShell(canceled, next, false, false);
      DrainOf(canceled.(port := next), w)
  }

  function CloseOf(q: State): State {
    CancelOf(q.(closed := true), QueueClosed).(port := None)
  }

  function AskOf(q: State, id: nat, c: Class, deadline: Option<int>, w: World): State
    requires Sound(q) && NewId(q, id)
  {
    if q.closed then q
    else
      EnqueueKeeps(q, id, c, deadline);
      DrainOf(Enqueue(q, id, c, deadline), w)
  }

  lemma EnqueuePlaces(q: State, id: nat, c: Class, deadline: Option<int>)
    requires Placed(q) && NewId(q, id)
    ensures Placed(Enqueue(q, id, c, deadline))
  {
    var r := Enqueue(q, id, c, deadline);
    forall x | x in q.normal || x in q.priority ensures x < id { }
    AscendingAppend(q.normal, id);
    AscendingAppend(q.priority, id);
    hide Ascending, NoDup;
    assert id !in q.jobs;
  }

  lemma AscendingAppend(s: seq<nat>, x: nat)
    requires Ascending(s)
    ensures (forall y | y in s :: y < x) ==> Ascending(s + [x])
  {
    if forall y | y in s :: y < x {
      forall i, j | 0 <= i < j < |s + [x]| ensures (s + [x])[i] < (s + [x])[j] {
        assert s[i] in s;
      }
    }
  }

  lemma EnqueueKeeps(q: State, id: nat, c: Class, deadline: Option<int>)
    requires Sound(q) && NewId(q, id)
    ensures Sound(Enqueue(q, id, c, deadline)) && Enqueue(q, id, c, deadline).jobs.Keys == q.jobs.Keys + {id}
  {
    EnqueueOthers(q, id, c, deadline);
    hide Placed, SettledOnce, WithinCaps, InOrder, ClassOf;
    var r := Enqueue(q, id, c, deadline);
    EnqueuePlaces(q, id, c, deadline);
    EnqueueOrders(q, id, c, deadline);
    EnqueueSettles(q, id, c, deadline);
    EnqueueCaps(q, id, c, deadline);
    RunKeepsFor(q.jobs, r.jobs, q.dispatched);
  }

  /** A new job changes the class of no job that was dispatched or is running. */
  lemma EnqueueOthers(q: State, id: nat, c: Class, deadline: Option<int>)
    requires Placed(q) && InOrder(q) && NewId(q, id)
    ensures var r := Enqueue(q, id, c, deadline);
            && (forall i | 0 <= i < |q.dispatched| :: ClassOf(r.jobs, q.dispatched[i]) == ClassOf(q.jobs, q.dispatched[i]) && q.dispatched[i] < id)
            && (forall x | x in q.running || x in q.normal || x in q.priority :: ClassOf(r.jobs, x) == ClassOf(q.jobs, x))
  {
    assert id !in q.jobs;
    hide ByArrival, Ahead;
  }

  lemma EnqueueOrders(q: State, id: nat, c: Class, deadline: Option<int>)
    requires Placed(q) && InOrder(q) && NewId(q, id)
    ensures InOrder(Enqueue(q, id, c, deadline))
  {
    EnqueueOthers(q, id, c, deadline);
    hide Placed, ByArrival, ClassOf;
    var r := Enqueue(q, id, c, deadline);
    OrderKeeps(q.jobs, r.jobs, q.dispatched, q.normal, q.normal);
    OrderKeeps(q.jobs, r.jobs, q.dispatched, q.priority, q.priority);
    AheadOfNew(r.jobs, q.dispatched, q.normal, id);
    AheadOfNew(r.jobs, q.dispatched, q.priority, id);
    hide Ahead;
  }

  lemma AheadOfNew(jobs: map<nat, Job>, ids: seq<nat>, waiting: seq<nat>, id: nat)
    requires Ahead(jobs, ids, waiting) && forall i | 0 <= i < |ids| :: ids[i] < id
    ensures Ahead(jobs, ids, waiting + [id])
  {
    hide ClassOf;
  }

  lemma EnqueueSettles(q: State, id: nat, c: Class, deadline: Option<int>)
    requires SettledOnce(q) && NewId(q, id)
    ensures SettledOnce(Enqueue(q, id, c, deadline))
  {
    var r := Enqueue(q, id, c, deadline);
    forall x | x in r.jobs && r.jobs[x].done ensures exists i | 0 <= i < |r.settled| :: r.settled[i].0 == x {
      assert x in q.jobs && q.jobs[x].done;
    }
  }

  lemma EnqueueCaps(q: State, id: nat, c: Class, deadline: Option<int>)
    requires Placed(q) && InOrder(q) && WithinCaps(q) && NewId(q, id)
    ensures WithinCaps(Enqueue(q, id, c, deadline))
  {
    EnqueueOthers(q, id, c, deadline);
    hide Placed, InOrder, ClassOf;
    CountsKeep(q.jobs, Enqueue(q, id, c, deadline).jobs, q.running);
  }

  lemma {:induction false} RunKeepsFor(jobs: map<nat, Job>, jobs': map<nat, Job>, dispatched: seq<nat>)
    requires forall i | 0 <= i < |dispatched| :: ClassOf(jobs', dispatched[i]) == ClassOf(jobs, dispatched[i])
    ensures PriorityRun(jobs', dispatched) == PriorityRun(jobs, dispatched)
  {
    if dispatched != [] { RunKeepsFor(jobs, jobs', dispatched[..|dispatched| - 1]); }
  }

  lemma SettleEffect(q: State, id: nat, outcome: Outcome)
    ensures var r := Settle(q, id, outcome);
            SameShell(q, r) && (id in q.jobs ==> r.jobs[id].done) && forall x | x in q.jobs && q.jobs[x].done :: r.jobs[x].done
  {
  }

  lemma {:induction false} SettleAllKeeps(q: State, ids: seq<nat>, outcome: Outcome)
    requires Sound(q)
    ensures var r := SettleAll(q, ids, outcome);
            && Sound(r) && SameShell(q, r)
            && forall id | id in q.jobs && (q.jobs[id].done || id in ids) :: r.jobs[id].done
    decreases |ids|
  {
    hide Sound, Settle;
    if ids != [] {
      SettleKeeps(q, ids[0], outcome);
      SettleEffect(q, ids[0], outcome);
      assert ids == [ids[0]] + ids[1..];
      SettleAllKeeps(Settle(q, ids[0], outcome), ids[1..], outcome);
    }
  }

  lemma NobodyUnplaced(q: State, id: nat)
    requires Sound(q) && id in q.jobs && !q.jobs[id].done
    ensures id in q.running + q.normal + q.priority
  {
  }

  lemma AllDoneMeansEmpty(q: State)
    requires Sound(q) && forall id | id in q.jobs :: q.jobs[id].done
    ensures q.running == [] && q.normal == [] && q.priority == []
  {
    HasElement(q.running);
    HasElement(q.normal);
    HasElement(q.priority);
  }

  /** Canceling settles every unfinished job, waiting or running, and leaves nothing queued. */
  lemma CancelKeeps(q: State, outcome: Outcome)
    requires Sound(q)
    ensures var r := CancelOf(q, outcome);
            && Sound(r) && SameShell(q, r)
            && (forall id | id in r.jobs :: r.jobs[id].done)
            && r.running == [] && r.normal == [] && r.priority == []
  {
    hide Sound, SettleAll;
    var ids := q.running + q.normal + q.priority;
    var start := q.(port := None);
    SoundIgnoresShell(q, None, false, false);
    SettleAllKeeps(start, ids, outcome);
    SoundIgnoresShell(SettleAll(start, ids, outcome), q.port, false, false);
    var r := CancelOf(q, outcome);
    forall id | id in r.jobs ensures r.jobs[id].done {
      if !q.jobs[id].done { NobodyUnplaced(q, id); }
    }
    AllDoneMeansEmpty(r);
  }

  // ---- whole runs ----

  ghost function ApplyEvent(q: State, e: Event, id: nat, w: World): State
    requires Sound(q) && NewId(q, id)
  {
    match e
    case Ask(c, deadline) => AskOf(q, id, c, deadline, w)
    case Reply(job, outcome) => FinishOf(q, job, outcome, w)
    case TimerFires(job) => FinishOf(q, job, TimedOut, w)
    case SetPort(next) => SetPortOf(q, next, w)
    case Cancel => CancelOf(q, Canceled)
    case Close => CloseOf(q)
  }

  lemma FinishKeeps(q: State, id: nat, outcome: Outcome, w: World)
    requires Sound(q)
    ensures Sound(FinishOf(q, id, outcome, w)) && SameShell(q, FinishOf(q, id, outcome, w))
  {
    hide Sound, Settle, DrainOf;
    if id in q.jobs && !q.jobs[id].done {
      SettleKeeps(q, id, outcome);
      SettleEffect(q, id, outcome);
      DrainKeeps(Settle(q, id, outcome), w);
    }
  }

  lemma SetPortKeeps(q: State, next: Option<nat>, w: World)
    requires Sound(q)
    ensures var r := SetPortOf(q, next, w);
            Sound(r) && r.jobs.Keys == q.jobs.Keys && r.draining == q.draining
  {
    hide Sound, CancelOf, DrainOf;
    if next != q.port && !q.closed {
      CancelKeeps(q, Canceled);
      var canceled := if q.port.Some? then CancelOf(q, Canceled) else q;
      SoundIgnoresShell(canceled, next, false, false);
      DrainKeeps(canceled.(port := next), w);
    }
  }

  lemma CloseKeeps(q: State)
    requires Sound(q)
    ensures var r := CloseOf(q);
            && Sound(r) && r.jobs.Keys == q.jobs.Keys && r.draining == q.draining && r.closed && r.port.None?
            && forall id | id in r.jobs :: r.jobs[id].done
  {
    hide Sound, CancelOf;
    SoundIgnoresShell(q, None, true, false);
    CancelKeeps(q.(closed := true), QueueClosed);
    SoundIgnoresShell(CancelOf(q.(closed := true), QueueClosed), None, true, false);
  }

  lemma AskKeeps(q: State, id: nat, c: Class, deadline: Option<int>, w: World)
    requires Sound(q) && NewId(q, id)
    ensures var r := AskOf(q, id, c, deadline, w);
            Sound(r) && q.jobs.Keys <= r.jobs.Keys <= q.jobs.Keys + {id} && r.draining == q.draining
  {
    hide Sound, DrainOf;
    if !q.closed {
      EnqueueKeeps(q, id, c, deadline);
      DrainKeeps(Enqueue(q, id, c, deadline), w);
    }
  }

  /** Every operation, in any order and with any replies, keeps the queue sound. */
  lemma EventKeeps(q: State, e: Event, id: nat, w: World)
    requires Sound(q) && NewId(q, id)
    ensures var r := ApplyEvent(q, e, id, w);
            Sound(r) && r.draining == q.draining && q.jobs.Keys <= r.jobs.Keys <= q.jobs.Keys + {id}
  {
    hide Sound, AskOf, FinishOf, SetPortOf, CancelOf, CloseOf;
    match e
    case Ask(c, deadline) => AskKeeps(q, id, c, deadline, w);
    case Reply(job, outcome) => FinishKeeps(q, job, outcome, w);
    case TimerFires(job) => FinishKeeps(q, job, TimedOut, w);
    case SetPort(next) => SetPortKeeps(q, next, w);
    case Cancel => CancelKeeps(q, Canceled);
    case Close => CloseKeeps(q);
  }

  ghost predicate Empty(q: State) {
    q == State([], [], [], map[], None, false, false, 0, [], [])
  }

  /** Jobs are numbered by the step that asked for them. */
  ghost predicate IsRun(states: seq<State>, events: seq<Event>, worlds: seq<World>) {
    && |states| == |events| + 1 && |worlds| == |events|
    && Empty(states[0])
    && forall i | 0 <= i < |events| ::
         Sound(states[i]) && NewId(states[i], i) ==> states[i + 1] == ApplyEvent(states[i], events[i], i, worlds[i])
  }

  /** In every reachable state the queue is sound: placement, caps, order and one settlement per promise. */
  lemma {:induction false} RunSound(states: seq<State>, events: seq<Event>, worlds: seq<World>, n: nat)
    requires IsRun(states, events, worlds) && n < |states|
    ensures Sound(states[n]) && !states[n].draining && NewId(states[n], n)
  {
    hide Sound, ApplyEvent;
    if n > 0 {
      RunSound(states, events, worlds, n - 1);
      EventKeeps(states[n - 1], events[n - 1], n - 1, worlds[n - 1]);
      assert states[n] == ApplyEvent(states[n - 1], events[n - 1], n - 1, worlds[n - 1]);
    } else {
      EmptySound(states[0]);
    }
  }

  lemma EmptySound(q: State)
    requires Empty(q)
    ensures Sound(q)
  {
  }
}
