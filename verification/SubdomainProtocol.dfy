/**
 * Many tabs over one storage: the mapping lock, a shared or exclusive use lock per id, and a
 * crash or a failed write possible between any two storage writes.
 */
module SubdomainProtocol {
  import opened Basics
  import opened Subdomains
  import opened SubdomainLaws

  /** The holder of the mapping lock and the writes it has left; `freeing` when it commits a cleanup. */
  datatype Holder = Holder(tab: nat, writes: seq<Write>, freeing: Option<nat>)

  /** A shared reservation: lock granted, reverse mapping read, then in use. */
  datatype Phase = Granted | ReverseRead(reverse: Option<Pair>) | Active

  datatype Use = Use(tab: nat, id: nat, pair: Pair, phase: Phase)

  /** An exclusive cleanup: lock granted, found eligible, origin cleared, committing. */
  datatype Cleanup = Acquired | Checked | Cleared | Committing

  datatype Cleaner = Cleaner(id: nat, stage: Cleanup)

  /** `tenants` is history: the pairs that have used an origin since its last confirmed clear. */
  datatype State = State(
    store: Store,
    mapping: Option<Holder>,
    uses: map<nat, Use>,
    cleaners: map<nat, Cleaner>,
    tenants: map<nat, set<Pair>>)

  datatype Step =
    | Begin(tab: nat, op: Op)
    | WriteOne
    | Unlock
    | Reserve(use: nat, tab: nat, id: nat, pair: Pair)
    | ReadReverse(use: nat)
    | Match(use: nat)
    | EndUse(use: nat)
    | Exclude(tab: nat, id: nat)
    | Check(tab: nat)
    | Clear(tab: nat)
    | Commit(tab: nat)
    | GiveUp(tab: nat)
    | Crash(tab: nat)

  ghost function Tenants(s: State, id: nat): set<Pair> {
    if id in s.tenants then s.tenants[id] else {}
  }

  /** The forward key must name the id, and the reverse key, read before, nobody else. */
  ghost predicate Granting(s: State, u: Use) {
    && u.phase.ReverseRead?
    && u.pair in s.store.byPair && s.store.byPair[u.pair] == u.id
    && (u.phase.reverse.None? || u.phase.reverse.value == u.pair)
  }

  ghost predicate Enabled(s: State, step: Step) {
    match step
    case Begin(_, op) => s.mapping.None? && (op.RetireFor? ==> Thorough(s.store, op.rs))
    case WriteOne => s.mapping.Some? && s.mapping.value.writes != []
    case Unlock => s.mapping.Some?
    case Reserve(use, _, id, _) => use !in s.uses && forall tab | tab in s.cleaners :: s.cleaners[tab].id != id
    case ReadReverse(use) => use in s.uses && s.uses[use].phase.Granted?
    case Match(use) => use in s.uses && s.uses[use].phase.ReverseRead?
    case EndUse(use) => use in s.uses
    case Exclude(tab, id) =>
      // Maintenance has run: the ids to clean come from the state it returned.
      && tab !in s.cleaners && LifecycleOf(s.store).current
      && (forall use | use in s.uses :: s.uses[use].id != id)
      && forall other | other in s.cleaners :: s.cleaners[other].id != id
    case Check(tab) => tab in s.cleaners && s.cleaners[tab].stage.Acquired? && s.mapping.None?
    case Clear(tab) => tab in s.cleaners && s.cleaners[tab].stage.Checked?
    case Commit(tab) => tab in s.cleaners && s.cleaners[tab].stage.Cleared? && s.mapping.None?
    case GiveUp(tab) => tab in s.cleaners
    case Crash(_) => true
  }

  /** Dropping a tab's exclusive lock ends its commit too: the two locks are nested. */
  ghost function WithoutCleaner(s: State, tab: nat): State {
    var freed := if s.mapping.Some? && s.mapping.value.tab == tab && s.mapping.value.freeing.Some? then None else s.mapping;
    s.(cleaners := s.cleaners - {tab}, mapping := freed)
  }

  ghost function Apply(s: State, step: Step): State
    requires Enabled(s, step)
  {
    match step
    case Begin(tab, op) => s.(mapping := Some(Holder(tab, PlanOf(s.store, op), None)))
    case WriteOne =>
      var h := s.mapping.value;
      s.(store := Exec(s.store, h.writes[0]), mapping := Some(h.(writes := h.writes[1..])))
    // Normal completion, or a write that threw: what is left is not written.
    case Unlock => s.(mapping := None)
    case Reserve(use, tab, id, pair) => s.(uses := s.uses[use := Use(tab, id, pair, Granted)])
    case ReadReverse(use) =>
      var u := s.uses[use];
      s.(uses := s.uses[use := u.(phase := ReverseRead(if u.id in s.store.toApp then Some(s.store.toApp[u.id]) else None))])
    case Match(use) =>
      var u := s.uses[use];
      if Granting(s, u) then
        s.(uses := s.uses[use := u.(phase := Active)], tenants := s.tenants[u.id := Tenants(s, u.id) + {u.pair}])
      else s.(uses := s.uses - {use})
    case EndUse(use) => s.(uses := s.uses - {use})
    case Exclude(tab, id) => s.(cleaners := s.cleaners[tab := Cleaner(id, Acquired)])
    case Check(tab) =>
      if Eligible(s.store, s.cleaners[tab].id) then s.(cleaners := s.cleaners[tab := s.cleaners[tab].(stage := Checked)])
      else s.(cleaners := s.cleaners - {tab})
    case Clear(tab) =>
      s.(cleaners := s.cleaners[tab := s.cleaners[tab].(stage := Cleared)], tenants := s.tenants[s.cleaners[tab].id := {}])
    case Commit(tab) =>
      var id := s.cleaners[tab].id;
      if Eligible(s.store, id) then
        s.(cleaners := s.cleaners[tab := Cleaner(id, Committing)], mapping := Some(Holder(tab, FreePlan(s.store, id), Some(id))))
      else s.(cleaners := s.cleaners - {tab})
    case GiveUp(tab) => WithoutCleaner(s, tab)
    case Crash(tab) =>
      WithoutCleaner(s, tab).(
        mapping := if s.mapping.Some? && s.mapping.value.tab == tab then None else s.mapping,
        uses := map use | use in s.uses && s.uses[use].tab != tab :: s.uses[use])
  }

  ghost predicate Next(s: State, step: Step, s': State) {
    Enabled(s, step) && s' == Apply(s, step)
  }

  /** Consistent storage, empty or left by an earlier version, and no tab running. */
  ghost predicate Initial(s: State) {
    Consistent(s.store) && s.mapping.None? && s.uses == map[] && s.cleaners == map[] && s.tenants == map[]
  }

  ghost predicate IsRun(states: seq<State>, steps: seq<Step>) {
    && |states| == |steps| + 1
    && Initial(states[0])
    && forall i | 0 <= i < |steps| :: Next(states[i], steps[i], states[i + 1])
  }

  // ---- the invariant ----

  /** A commit in progress: it owns the id's exclusive lock and writes the free list, then the quarantine. */
  ghost predicate FreeingPlan(s: State, h: Holder)
    requires h.freeing.Some?
  {
    var id := h.freeing.value;
    var last := PutLifecycle(LifecycleOf(s.store).(current := true, pending := Pending(s.store) - {id}));
    && h.tab in s.cleaners && s.cleaners[h.tab] == Cleaner(id, Committing)
    && (h.writes == [] || h.writes == [last] || h.writes == [PutFree(s.store.freeIds + {id}), last])
  }

  ghost predicate HolderSafe(s: State) {
    s.mapping.Some? ==>
      if s.mapping.value.freeing.Some? then FreeingPlan(s, s.mapping.value) else CarefulPlan(s.store, s.mapping.value.writes)
  }

  /** The locks themselves: an exclusive holder is alone on its id. */
  ghost predicate LocksHold(s: State) {
    && (forall tab, use | tab in s.cleaners && use in s.uses :: s.cleaners[tab].id != s.uses[use].id)
    && (forall a, b | a in s.cleaners && b in s.cleaners && s.cleaners[a].id == s.cleaners[b].id :: a == b)
  }

  /** An id found eligible stays quarantined and unmapped until its own commit. */
  ghost predicate QuarantineHolds(s: State) {
    forall tab | tab in s.cleaners && (s.cleaners[tab].stage.Checked? || s.cleaners[tab].stage.Cleared?) ::
      Eligible(s.store, s.cleaners[tab].id)
  }

  ghost predicate ClearedHolds(s: State) {
    forall tab | tab in s.cleaners && (s.cleaners[tab].stage.Cleared? || s.cleaners[tab].stage.Committing?) ::
      Tenants(s, s.cleaners[tab].id) == {}
  }

  /** A tenant's origin can go to nobody else. */
  ghost predicate TenantsHold(s: State) {
    forall id, p | p in Tenants(s, id) :: Held(s.store, id, p)
  }

  ghost predicate AtMostOne(ps: set<Pair>) {
    forall p, q | p in ps && q in ps :: p == q
  }

  ghost predicate SingleTenant(s: State) {
    forall id | id in s.tenants :: AtMostOne(s.tenants[id])
  }

  ghost predicate UsesHold(s: State) {
    forall use | use in s.uses && s.uses[use].phase.Active? :: s.uses[use].pair in Tenants(s, s.uses[use].id)
  }

  ghost predicate Inv(s: State) {
    && Consistent(s.store) && HolderSafe(s) && LocksHold(s) && QuarantineHolds(s) && ClearedHolds(s) && TenantsHold(s) && UsesHold(s) && SingleTenant(s)
  }

  lemma PlanCareful(s: Store, op: Op)
    requires Consistent(s) && (op.RetireFor? ==> Thorough(s, op.rs))
    ensures CarefulPlan(s, PlanOf(s, op))
  {
    match op
    case Allocate(pair, token) => AllocateCareful(s, pair, token);
    case Release(pair, id) => ReleaseCareful(s, pair, id);
    case Retire(id) => RetireCareful(s, id);
    case RetireFor(rs) => RetireForCareful(s, rs);
    case Maintain => MaintainCareful(s);
  }

  lemma OrdinaryWriteKeeps(s: State)
    requires Inv(s) && Enabled(s, WriteOne) && s.mapping.value.freeing.None?
    ensures Inv(Apply(s, WriteOne))
  {
    CarefulProtects(s.store, s.mapping.value.writes[0]);
  }

  /** The one kind of write that opens an id: nobody has used it since it was cleared, and nobody can now. */
  lemma FreeingWriteKeeps(s: State)
    requires Inv(s) && Enabled(s, WriteOne) && s.mapping.value.freeing.Some?
    ensures Inv(Apply(s, WriteOne))
  {
    var h := s.mapping.value;
    var id := h.freeing.value;
    var s' := Apply(s, WriteOne);
    assert Tenants(s, id) == {};
    forall other, p | p in Tenants(s', other) ensures Held(s'.store, other, p) {
      assert other != id;
      assert Held(s.store, other, p);
      if Mapped(s.store, other) { StillMapped(s.store, s'.store, other); }
    }
    forall tab | tab in s'.cleaners && (s'.cleaners[tab].stage.Checked? || s'.cleaners[tab].stage.Cleared?)
      ensures Eligible(s'.store, s'.cleaners[tab].id)
    {
      assert tab != h.tab && s.cleaners[tab].id != id;
      StillUnmapped(s.store, s'.store, s.cleaners[tab].id);
    }
    if |h.writes| == 2 { assert h.writes[1..] == [h.writes[1]]; } else { assert h.writes[1..] == []; }
  }

  lemma StillMapped(s: Store, s': Store, id: nat)
    requires Mapped(s, id) && s.toApp == s'.toApp && s.byPair == s'.byPair
    ensures Mapped(s', id)
  {
    if id !in s.toApp {
      var p :| p in s.byPair && s.byPair[p] == id;
      assert p in s'.byPair && s'.byPair[p] == id;
    }
  }

  lemma StillUnmapped(s: Store, s': Store, id: nat)
    requires !Mapped(s, id) && s.toApp == s'.toApp && s.byPair == s'.byPair
    ensures !Mapped(s', id)
  {
  }

  lemma MatchKeeps(s: State, use: nat)
    requires Inv(s) && Enabled(s, Match(use))
    ensures Inv(Apply(s, Match(use)))
  {
    hide CarefulPlan;
    var u := s.uses[use];
    if Granting(s, u) {
      assert Mapped(s.store, u.id);
      assert Held(s.store, u.id, u.pair);
      forall q | q in Tenants(s, u.id) ensures q == u.pair {
        assert Held(s.store, u.id, q);
      }
    }
  }

  lemma BeginKeeps(s: State, tab: nat, op: Op)
    requires Inv(s) && Enabled(s, Begin(tab, op))
    ensures Inv(Apply(s, Begin(tab, op)))
  {
    PlanCareful(s.store, op);
  }

  lemma UseStepKeeps(s: State, step: Step)
    requires Inv(s) && Enabled(s, step)
    requires step.Unlock? || step.Reserve? || step.ReadReverse? || step.EndUse? || step.Exclude?
    ensures Inv(Apply(s, step))
  {
    hide Consistent, CarefulPlan, Held, AtMostOne, Eligible;
  }

  lemma CheckKeeps(s: State, tab: nat)
    requires Inv(s) && Enabled(s, Check(tab))
    ensures Inv(Apply(s, Check(tab)))
  {
    hide Consistent, CarefulPlan, Held, AtMostOne;
  }

  /** Clearing keeps everything: the exclusive lock means that no reservation is held. */
  lemma ClearKeeps(s: State, tab: nat)
    requires Inv(s) && Enabled(s, Clear(tab))
    ensures Inv(Apply(s, Clear(tab)))
  {
    hide Consistent, CarefulPlan, Held;
  }

  lemma CommitKeeps(s: State, tab: nat)
    requires Inv(s) && Enabled(s, Commit(tab))
    ensures Inv(Apply(s, Commit(tab)))
  {
    hide CarefulPlan, Held, AtMostOne;
  }

  lemma LeaveKeeps(s: State, step: Step)
    requires Inv(s) && Enabled(s, step) && (step.GiveUp? || step.Crash?)
    ensures Inv(Apply(s, step))
  {
    hide Consistent, CarefulPlan, Held, AtMostOne, Eligible;
  }

  lemma StepKeeps(s: State, step: Step, s': State)
    requires Inv(s) && Next(s, step, s')
    ensures Inv(s')
  {
    hide Inv;
    match step
    case Begin(tab, op) => BeginKeeps(s, tab, op);
    case WriteOne => if s.mapping.value.freeing.Some? { FreeingWriteKeeps(s); } else { OrdinaryWriteKeeps(s); }
    case Match(use) => MatchKeeps(s, use);
    case Check(tab) => CheckKeeps(s, tab);
    case Clear(tab) => ClearKeeps(s, tab);
    case Commit(tab) => CommitKeeps(s, tab);
    case GiveUp(_) => LeaveKeeps(s, step);
    case Crash(_) => LeaveKeeps(s, step);
    case _ => UseStepKeeps(s, step);
  }

  lemma {:induction false} RunKeeps(states: seq<State>, steps: seq<Step>, n: nat)
    requires IsRun(states, steps) && n < |states|
    ensures Inv(states[n])
  {
    if n == 0 {
      assert Initial(states[0]);
    } else {
      RunKeeps(states, steps, n - 1);
      StepKeeps(states[n - 1], steps[n - 1], states[n]);
    }
  }

  // ---- isolation ----

  /** In no reachable state do two different pairs use the same origin. */
  lemma OriginIsolation(states: seq<State>, steps: seq<Step>, n: nat, u: nat, v: nat)
    requires IsRun(states, steps) && n < |states|
    requires u in states[n].uses && v in states[n].uses
    requires states[n].uses[u].phase.Active? && states[n].uses[v].phase.Active?
    requires states[n].uses[u].id == states[n].uses[v].id
    ensures states[n].uses[u].pair == states[n].uses[v].pair
  {
    RunKeeps(states, steps, n);
    var s := states[n];
    assert AtMostOne(s.tenants[s.uses[u].id]);
  }

  /** A clear happens only while the origin is quarantined, unmapped and reserved by nobody. */
  lemma ClearIsExclusive(states: seq<State>, steps: seq<Step>, n: nat, tab: nat)
    requires IsRun(states, steps) && n < |steps| && steps[n] == Clear(tab)
    ensures tab in states[n].cleaners
    ensures var id := states[n].cleaners[tab].id;
            && Eligible(states[n].store, id)
            && forall use | use in states[n].uses :: states[n].uses[use].id != id
  {
    RunKeeps(states, steps, n);
    assert Next(states[n], steps[n], states[n + 1]);
  }

  /** What was found eligible is still eligible when the cleanup commits: the second test never fails. */
  lemma RecheckNeverFails(states: seq<State>, steps: seq<Step>, n: nat, tab: nat)
    requires IsRun(states, steps) && n < |steps| && steps[n] == Commit(tab)
    ensures tab in states[n].cleaners && Eligible(states[n].store, states[n].cleaners[tab].id)
  {
    RunKeeps(states, steps, n);
    assert Next(states[n], steps[n], states[n + 1]);
  }

  ghost predicate ClearsId(s: State, step: Step, id: nat) {
    step.Clear? && step.tab in s.cleaners && s.cleaners[step.tab].id == id
  }

  lemma {:induction false} TenantStays(states: seq<State>, steps: seq<Step>, m: nat, n: nat, id: nat, p: Pair)
    requires IsRun(states, steps) && m <= n < |states|
    requires p in Tenants(states[m], id)
    requires forall i | m <= i < n :: !ClearsId(states[i], steps[i], id)
    ensures p in Tenants(states[n], id)
  {
    if m < n {
      assert Next(states[n - 1], steps[n - 1], states[n]);
      assert !ClearsId(states[n - 1], steps[n - 1], id);
      hide Next, ClearsId, Initial, Tenants;
      TenantStays(states, steps, m, n - 1, id, p);
      StepKeepsTenant(states[n - 1], steps[n - 1], states[n], id, p);
    }
  }

  lemma StepKeepsTenant(s: State, step: Step, s': State, id: nat, p: Pair)
    requires Next(s, step, s') && !ClearsId(s, step, id) && p in Tenants(s, id)
    ensures p in Tenants(s', id)
  {
  }

  /** An origin passes from one pair to another only across a confirmed clear of it. */
  lemma PassesOnlyThroughClear(states: seq<State>, steps: seq<Step>, m: nat, n: nat, u: nat, v: nat)
    requires IsRun(states, steps) && m <= n < |states|
    requires u in states[m].uses && v in states[n].uses
    requires states[m].uses[u].phase.Active? && states[n].uses[v].phase.Active?
    requires states[m].uses[u].id == states[n].uses[v].id && states[m].uses[u].pair != states[n].uses[v].pair
    ensures exists i | m <= i < n :: ClearsId(states[i], steps[i], states[m].uses[u].id)
  {
    var id, p := states[m].uses[u].id, states[m].uses[u].pair;
    RunKeeps(states, steps, m);
    RunKeeps(states, steps, n);
    if forall i | m <= i < n :: !ClearsId(states[i], steps[i], id) {
      TenantStays(states, steps, m, n, id, p);
    }
  }
}
