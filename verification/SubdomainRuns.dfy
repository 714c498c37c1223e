/** The storage over whole runs of many tabs: in order at every lock release, and no token lost by any crash. */
module SubdomainRuns {
  import opened Basics
  import opened Subdomains
  import opened SubdomainLaws
  import opened SubdomainTidy
  import opened SubdomainRecovery
  import opened SubdomainProtocol

  // ---- what single writes do to tokens and version ----

  /** A write keeps every token, and the version once it is current. */
  ghost predicate KeepsTokens(s: Store, w: Write) {
    w.PutLifecycle? ==>
      LifecycleOf(s).assignments.Keys <= w.state.assignments.Keys && (LifecycleOf(s).current ==> w.state.current)
  }

  ghost predicate TokenPlan(s: Store, ws: seq<Write>)
    decreases |ws|
  {
    ws == [] || (KeepsTokens(s, ws[0]) && TokenPlan(Exec(s, ws[0]), ws[1..]))
  }

  lemma {:induction false} TokenConcat(s: Store, a: seq<Write>, b: seq<Write>)
    requires TokenPlan(s, a) && TokenPlan(Run(s, a), b)
    ensures TokenPlan(s, a + b)
    decreases |a|
  {
    hide KeepsTokens, Exec;
    if a == [] {
      assert a + b == b;
    } else {
      assert (a + b)[1..] == a[1..] + b;
      TokenConcat(Exec(s, a[0]), a[1..], b);
    }
  }

  lemma TokenFew(s: Store, u: Write, v: Write, w: Write)
    ensures TokenPlan(s, [])
    ensures KeepsTokens(s, u) ==> TokenPlan(s, [u])
    ensures KeepsTokens(s, u) && KeepsTokens(Exec(s, u), v) ==> TokenPlan(s, [u, v])
    ensures KeepsTokens(s, u) && KeepsTokens(Exec(s, u), v) && KeepsTokens(Exec(Exec(s, u), v), w) ==> TokenPlan(s, [u, v, w])
  {
    assert [u][1..] == [] && [u, v][1..] == [v] && [u, v, w][1..] == [v, w] && [v][1..] == [] && [v, w][1..] == [w] && [w][1..] == [];
    hide KeepsTokens, Exec;
    assert TokenPlan(Exec(Exec(s, u), v), []);
    assert KeepsTokens(Exec(s, u), v) ==> TokenPlan(Exec(s, u), [v]);
    assert KeepsTokens(Exec(Exec(s, u), v), w) ==> TokenPlan(Exec(Exec(s, u), v), [w]);
    assert KeepsTokens(Exec(s, u), v) && KeepsTokens(Exec(Exec(s, u), v), w) ==> TokenPlan(Exec(s, u), [v, w]);
  }

  lemma InitTokens(s: Store)
    ensures TokenPlan(s, InitPlan(s))
  {
    var first := PutLifecycle(Lifecycle(true, Pending(s) + s.freeIds, LifecycleOf(s).assignments));
    TokenFew(s, first, PutFree({}), PutFree({}));
  }

  lemma AllocateTokens(s: Store, pair: Pair, token: nat)
    ensures TokenPlan(s, AllocatePlan(s, pair, token))
  {
    InitTokens(s);
    AllocateTailTokens(Initialized(s), pair, token);
    hide TokenPlan, AllocateTail, InitPlan;
    TokenConcat(s, InitPlan(s), AllocateTail(Initialized(s), pair, token).0);
  }

  lemma AllocateTailTokens(s: Store, pair: Pair, token: nat)
    ensures TokenPlan(s, AllocateTail(s, pair, token).0)
  {
    hide TokenPlan, Run, Above, Least, FreshId, KnownIds, Mapped;
    TokenFew(s, PutNext(0), PutNext(0), PutNext(0));
    if pair in s.byPair {
      TokenFew(s, PutToApp(s.byPair[pair], pair), PutNext(0), PutNext(0));
    } else if ReverseOf(s, pair) != {} {
      TokenFew(s, PutByPair(pair, Least(ReverseOf(s, pair))), PutNext(0), PutNext(0));
    } else {
      var id := if Reusable(s) != {} then Least(Reusable(s)) else FreshId(s);
      var first := if Reusable(s) != {} then PutFree(s.freeIds - {id}) else PutNext(id + 1);
      var t := Exec(s, first);
      var ws := Assign(s, id, pair, token);
      TokenFew(s, first, first, first);
      TokenFew(t, ws[0], ws[1], ws[2]);
      assert ws == [ws[0], ws[1], ws[2]];
      RunTwo(s, first, first);
      TokenConcat(s, [first], ws);
    }
  }

  lemma RetireTokens(s: Store, id: nat)
    ensures TokenPlan(s, RetirePlan(s, id))
  {
    InitTokens(s);
    RetireTailTokens(Initialized(s), id);
    hide TokenPlan, RetireTail, InitPlan;
    TokenConcat(s, InitPlan(s), RetireTail(Initialized(s), id));
  }

  lemma RetireTailTokens(s: Store, id: nat)
    ensures TokenPlan(s, RetireTail(s, id))
  {
    hide TokenPlan;
    var state := LifecycleOf(s).(pending := Pending(s) + {id});
    var first := [PutLifecycle(state), PutFree(s.freeIds - {id})];
    RetireTailShape(s, id);
    TokenFew(s, first[0], first[1], first[1]);
    RunTwo(s, first[0], first[1]);
    var t := Run(s, first);
    TokenFew(t, DropToApp(id), DropToApp(id), DropToApp(id));
    if id in s.toApp && s.toApp[id] in s.byPair && s.byPair[s.toApp[id]] == id {
      TokenFew(t, DropByPair(s.toApp[id]), DropToApp(id), DropToApp(id));
      TokenConcat(s, first, [DropByPair(s.toApp[id]), DropToApp(id)]);
    } else {
      TokenConcat(s, first, [DropToApp(id)]);
    }
  }

  lemma {:induction false} DropPairsTokens(s: Store, pairs: seq<Pair>)
    ensures TokenPlan(s, DropPairs(pairs))
    decreases |pairs|
  {
    if pairs != [] {
      assert DropPairs(pairs)[1..] == DropPairs(pairs[1..]);
      DropPairsTokens(Exec(s, DropByPair(pairs[0])), pairs[1..]);
    }
  }

  lemma {:induction false} RetireForTokens(s: Store, rs: seq<Retirement>)
    ensures TokenPlan(s, RetireForPlan(s, rs))
    decreases |rs|
  {
    hide Run, RetirePlan, DropPairs;
    if rs != [] {
      var n := |rs| - 1;
      var before := RetireForPlan(s, rs[..n]);
      var t := Run(s, before);
      RetireForTokens(s, rs[..n]);
      RetireTokens(t, rs[n].id);
      DropPairsTokens(Run(t, RetirePlan(t, rs[n].id)), rs[n].stray);
      hide TokenPlan;
      TokenConcat(t, RetirePlan(t, rs[n].id), DropPairs(rs[n].stray));
      TokenConcat(s, before, RetireOne(t, rs[n]));
    }
  }

  lemma MaintainTokens(s: Store)
    ensures TokenPlan(s, MaintainPlan(s))
  {
    hide TokenPlan, Run, LostIds, KnownIds, Above;
    InitTokens(s);
    var t := Initialized(s);
    var next := LifecycleOf(t).(pending := Pending(t) + LostIds(t));
    var minimum := Above(KnownIds(t, next));
    TokenFew(t, PutLifecycle(next), PutNext(minimum), PutNext(minimum));
    TokenFew(t, PutNext(minimum), PutNext(minimum), PutNext(minimum));
    assert [PutLifecycle(next)] + [PutNext(minimum)] == [PutLifecycle(next), PutNext(minimum)];
    assert [] + [PutNext(minimum)] == [PutNext(minimum)] && [PutLifecycle(next)] + [] == [PutLifecycle(next)];
    var ws := MaintainTail(t);
    assert ws == [] || ws == [PutLifecycle(next)] || ws == [PutNext(minimum)] || ws == [PutLifecycle(next), PutNext(minimum)];
    hide MaintainTail;
    TokenConcat(s, InitPlan(s), ws);
  }

  lemma OpTokens(s: Store, op: Op)
    ensures TokenPlan(s, PlanOf(s, op))
  {
    TokenFew(s, PutNext(0), PutNext(0), PutNext(0));
    hide TokenPlan, AllocatePlan, RetirePlan, RetireForPlan, MaintainPlan;
    match op {
      case Allocate(pair, token) => { AllocateTokens(s, pair, token); }
      case Release(pair, id) => { RetireTokens(s, id); }
      case Retire(id) => { RetireTokens(s, id); }
      case RetireFor(rs) => { RetireForTokens(s, rs); }
      case Maintain => { MaintainTokens(s); }
    }
  }

  // ---- tokens over runs, with any crashes ----

  /** What is left to write keeps tokens, and cleanups only exist once the version is current. */
  ghost predicate Tokens(s: State) {
    && (s.mapping.Some? ==> TokenPlan(s.store, s.mapping.value.writes))
    && (s.cleaners != map[] ==> LifecycleOf(s.store).current)
  }

  ghost predicate Inherits(s: Store, s': Store) {
    LifecycleOf(s).assignments.Keys <= LifecycleOf(s').assignments.Keys && (LifecycleOf(s).current ==> LifecycleOf(s').current)
  }

  lemma StepTokens(s: State, step: Step, s': State)
    requires Tokens(s) && Next(s, step, s')
    ensures Tokens(s') && Inherits(s.store, s'.store)
  {
    match step {
      case Begin(_, op) => { OpTokens(s.store, op); hide TokenPlan, PlanOf; }
      case WriteOne => { hide FreePlan; }
      case Commit(tab) => { FreeTokens(s.store, s.cleaners[tab].id); hide TokenPlan, FreePlan; }
      case _ => { hide TokenPlan; }
    }
  }

  lemma FreeTokens(s: Store, id: nat)
    ensures TokenPlan(s, FreePlan(s, id))
  {
    var ws := FreePlan(s, id);
    TokenFew(s, ws[0], ws[1], ws[1]);
    assert ws == [ws[0], ws[1]];
  }

  lemma {:induction false} RunTokens(states: seq<State>, steps: seq<Step>, m: nat, n: nat)
    requires IsRun(states, steps) && m <= n < |states|
    ensures Tokens(states[n]) && Inherits(states[m].store, states[n].store)
    decreases n
  {
    hide Next;
    if n > 0 {
      assert Next(states[n - 1], steps[n - 1], states[n]);
      if m < n { RunTokens(states, steps, m, n - 1); } else { RunTokens(states, steps, n - 1, n - 1); }
      hide Tokens;
      StepTokens(states[n - 1], steps[n - 1], states[n]);
    } else {
      assert Initial(states[0]);
    }
  }

  /**
   * No lost origins: in every run of any number of tabs, with crashes, failed writes and abandoned cleanups anywhere,
   * an id that ever got a token keeps it, and one maintenance pass at any later moment finds the id mapped,
   * quarantined or free.
   */
  lemma TokensSurvive(states: seq<State>, steps: seq<Step>, m: nat, n: nat, id: nat)
    requires IsRun(states, steps) && m <= n < |states| && id in LifecycleOf(states[m].store).assignments
    ensures id in LifecycleOf(states[n].store).assignments
    ensures Accounted(Run(states[n].store, MaintainPlan(states[n].store)), id)
  {
    RunTokens(states, steps, m, n);
    MaintainAccounts(states[n].store, id);
    hide IsRun, Run, MaintainPlan, Tokens, Accounted;
  }

  // ---- runs without an interrupted operation ----

  /** The storage when the operation in progress, if any, will have made its writes. */
  ghost function Outcome(s: State): Store {
    if s.mapping.Some? then Run(s.store, s.mapping.value.writes) else s.store
  }

  /** Who gives up the mapping lock has made all writes: tabs may crash, but not in the middle of an operation. */
  ghost predicate Uninterrupted(s: State, step: Step) {
    Enabled(s, step) && (s.mapping.Some? && Apply(s, step).mapping.None? ==> s.mapping.value.writes == [])
  }

  /** Without an interruption a step changes the outcome only by starting something. */
  lemma StepOutcome(s: State, step: Step)
    requires Enabled(s, step) && Uninterrupted(s, step) && !step.Begin? && !step.Commit?
    ensures Outcome(Apply(s, step)) == Outcome(s)
  {
    match step {
      case WriteOne => { assert Run(s.store, s.mapping.value.writes) == Run(Exec(s.store, s.mapping.value.writes[0]), s.mapping.value.writes[1..]); }
      case _ => { RunNothing(s.store); hide Run; }
    }
  }

  lemma BeginOrderly(s: State, tab: nat, op: Op)
    requires Enabled(s, Begin(tab, op)) && Orderly(Outcome(s))
    ensures var r := Outcome(Apply(s, Begin(tab, op)));
            Orderly(r) && (Tidy(Outcome(s)) && Within(s.store, op) ==> Tidy(r))
  {
    OpOrderly(s.store, op);
    hide Orderly, Run, PlanOf, Tidy, Within, Thorough;
  }

  lemma CommitOrderly(s: State, tab: nat)
    requires Enabled(s, Commit(tab)) && Orderly(Outcome(s)) && Tokens(s)
    ensures var r := Outcome(Apply(s, Commit(tab))); Orderly(r) && (Tidy(Outcome(s)) ==> Tidy(r))
  {
    var id := s.cleaners[tab].id;
    assert LifecycleOf(s.store).current;
    hide Orderly, Run, FreePlan, TokenPlan, Counted;
    if Eligible(s.store, id) { FreeOrderly(s.store, id); }
    hide Eligible;
  }

  lemma StepOrderly(s: State, step: Step, s': State)
    requires Next(s, step, s') && Uninterrupted(s, step) && Tokens(s) && Orderly(Outcome(s))
    ensures Orderly(Outcome(s'))
    ensures Tidy(Outcome(s)) && (step.Begin? ==> Within(s.store, step.op)) ==> Tidy(Outcome(s'))
  {
    hide Orderly, Outcome, Tokens, Tidy, Within, Uninterrupted, Apply, Enabled;
    match step {
      case Begin(tab, op) => { BeginOrderly(s, tab, op); }
      case Commit(tab) => { CommitOrderly(s, tab); }
      case _ => { StepOutcome(s, step); }
    }
  }

  /** From step `m` on no operation is interrupted. */
  ghost predicate Smooth(states: seq<State>, steps: seq<Step>, m: nat, n: nat)
    requires IsRun(states, steps) && n <= |steps|
  {
    forall i | m <= i < n :: Next(states[i], steps[i], states[i + 1]) && Uninterrupted(states[i], steps[i])
  }

  /** Every operation that begins names only ids below the counter. */
  ghost predicate AllWithin(states: seq<State>, steps: seq<Step>, m: nat, n: nat)
    requires n <= |steps| <= |states|
  {
    forall i | m <= i < n && steps[i].Begin? :: Within(states[i].store, steps[i].op)
  }

  /**
   * At every release of the mapping lock in a run without an interrupted operation: the maps are inverse, mapped,
   * quarantined and free ids are disjoint and contain every assigned id; and once the counter exceeds every known id
   * it does so for good. This holds from empty storage and from storage of an earlier version alike.
   */
  lemma {:induction false} InOrderAtRelease(states: seq<State>, steps: seq<Step>, m: nat, n: nat)
    requires IsRun(states, steps) && m <= n < |states| && Smooth(states, steps, m, n) && Orderly(Outcome(states[m]))
    ensures Orderly(Outcome(states[n])) && (states[n].mapping.None? ==> Orderly(states[n].store))
    ensures Tidy(Outcome(states[m])) && AllWithin(states, steps, m, n) ==>
              Tidy(Outcome(states[n])) && (states[n].mapping.None? ==> Tidy(states[n].store))
    decreases n
  {
    hide Orderly, Tidy, Next, Uninterrupted, Within, Tokens;
    if m < n {
      InOrderAtRelease(states, steps, m, n - 1);
      RunTokens(states, steps, m, n - 1);
      assert Next(states[n - 1], steps[n - 1], states[n]) && Uninterrupted(states[n - 1], steps[n - 1]);
      StepOrderly(states[n - 1], steps[n - 1], states[n]);
    }
  }

  /** The base case: runs that begin on empty storage, or on any storage of an earlier version with inverse maps and no tokens. */
  lemma OrderedFromTheStart(states: seq<State>, steps: seq<Step>, n: nat)
    requires IsRun(states, steps) && n < |states| && Smooth(states, steps, 0, n)
    requires var s := states[0].store; Inverse(s) && s.lifecycle.None? && s.toApp.Keys !! s.freeIds
    ensures states[n].mapping.None? ==> Orderly(states[n].store)
  {
    LegacyOrderly(states[0].store);
    StartsIdle(states, steps);
    hide Orderly, IsRun, Smooth;
    InOrderAtRelease(states, steps, 0, n);
  }

  lemma StartsIdle(states: seq<State>, steps: seq<Step>)
    requires IsRun(states, steps)
    ensures Outcome(states[0]) == states[0].store
  {
  }

  /** Beginning a maintenance pass in ordered storage, from any version, makes the outcome tidy if the ids leave room. */
  lemma MaintenanceTidies(s: State, tab: nat)
    requires Enabled(s, Begin(tab, Op.Maintain)) && Orderly(s.store)
    requires forall id | id in KnownIds(s.store, LifecycleOf(s.store)) :: id + 1 <= MAX_SAFE
    ensures Tidy(Outcome(Apply(s, Begin(tab, Op.Maintain))))
  {
    MaintainRestores(s.store);
    hide Orderly, Tidy, Run, MaintainPlan, KnownIds;
  }
}
