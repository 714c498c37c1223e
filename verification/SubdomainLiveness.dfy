/** What each operation of the allocator answers, on any storage whatever, and that reservations and cleanups get done. */
module SubdomainLiveness {
  import opened Basics
  import opened Subdomains
  import opened SubdomainLaws
  import opened SubdomainTidy
  import opened SubdomainProtocol

  // ---- allocation ----

  /** A recycled origin: free, not in quarantine, and mapped neither way. */
  ghost predicate Recyclable(t: Store, id: nat) {
    id in t.freeIds && id !in Pending(t) && id !in t.toApp && forall p | p in t.byPair :: t.byPair[p] != id
  }

  /**
   * The answer of an allocation, case by case: the pair's own id, whichever map names it, and an error if that id belongs to
   * another pair; else the least origin that can be recycled; else the least id that is neither known nor below the
   * counter, and an error when it leaves no room for a counter. Whoever gets an id has it in both maps.
   */
  lemma AllocateIs(s: Store, pair: Pair, token: nat)
    ensures var (t, r) := (Initialized(s), Run(s, AllocatePlan(s, pair, token)));
            var a := AllocateTail(t, pair, token).1;
            && (a.Assigned? ==> pair in r.byPair && r.byPair[pair] == a.id && a.id in r.toApp && r.toApp[a.id] == pair)
            && (!a.Assigned? ==> r == t)
            && (a.MappedToAnother? <==> pair in s.byPair && s.byPair[pair] in s.toApp && s.toApp[s.byPair[pair]] != pair)
            && (pair in s.byPair && a.Assigned? ==> a.id == s.byPair[pair])
            && (pair !in s.byPair && (exists id :: id in s.toApp && s.toApp[id] == pair) ==>
                  a.Assigned? && a.id in s.toApp && s.toApp[a.id] == pair && forall id | id in s.toApp && s.toApp[id] == pair :: a.id <= id)
            && (pair !in s.byPair && (forall id | id in s.toApp :: s.toApp[id] != pair) ==>
                  if exists id :: Recyclable(t, id) then
                    && a.Assigned? && Recyclable(t, a.id) && (forall id | Recyclable(t, id) :: a.id <= id)
                    && r.freeIds == t.freeIds - {a.id} && r.nextId == t.nextId
                  else
                    var id := FreshId(t);
                    && (forall known | known in KnownIds(t, LifecycleOf(t)) :: known < id)
                    && (SafeCounter(t.nextId) ==> t.nextId.value <= id)
                    && (id > 0 && !(SafeCounter(t.nextId) && t.nextId.value == id) ==> id - 1 in KnownIds(t, LifecycleOf(t)))
                    && (a.Exhausted? <==> id + 1 > 9007199254740991)
                    && (!a.Exhausted? ==> a == Assigned(id) && r.nextId == Some(id + 1) && r.freeIds == t.freeIds))
  {
    var t := Initialized(s);
    InitCareful(s);
    RunConcat(s, InitPlan(s), AllocateTail(t, pair, token).0);
    AllocateTailIs(t, pair, token);
    hide Run, AllocateTail, InitPlan, FreshId, KnownIds, Recyclable;
  }

  lemma RecyclableIs(t: Store, id: nat)
    ensures id in Reusable(t) <==> Recyclable(t, id)
  {
  }

  lemma AllocateTailIs(t: Store, pair: Pair, token: nat)
    ensures var (ws, a) := AllocateTail(t, pair, token);
            var r := Run(t, ws);
            && (a.Assigned? ==> pair in r.byPair && r.byPair[pair] == a.id && a.id in r.toApp && r.toApp[a.id] == pair)
            && (!a.Assigned? ==> r == t)
            && (a.MappedToAnother? <==> pair in t.byPair && t.byPair[pair] in t.toApp && t.toApp[t.byPair[pair]] != pair)
            && (pair in t.byPair && a.Assigned? ==> a.id == t.byPair[pair])
            && (pair !in t.byPair && (exists id :: id in t.toApp && t.toApp[id] == pair) ==>
                  a.Assigned? && a.id in t.toApp && t.toApp[a.id] == pair && forall id | id in t.toApp && t.toApp[id] == pair :: a.id <= id)
            && (pair !in t.byPair && (forall id | id in t.toApp :: t.toApp[id] != pair) ==>
                  if exists id :: Recyclable(t, id) then
                    && a.Assigned? && Recyclable(t, a.id) && (forall id | Recyclable(t, id) :: a.id <= id)
                    && r.freeIds == t.freeIds - {a.id} && r.nextId == t.nextId
                  else
                    var id := FreshId(t);
                    && (forall known | known in KnownIds(t, LifecycleOf(t)) :: known < id)
                    && (SafeCounter(t.nextId) ==> t.nextId.value <= id)
                    && (id > 0 && !(SafeCounter(t.nextId) && t.nextId.value == id) ==> id - 1 in KnownIds(t, LifecycleOf(t)))
                    && (a.Exhausted? <==> id + 1 > 9007199254740991)
                    && (!a.Exhausted? ==> a == Assigned(id) && r.nextId == Some(id + 1) && r.freeIds == t.freeIds))
  {
    RunNothing(t);
    forall id ensures id in Reusable(t) <==> Recyclable(t, id) { RecyclableIs(t, id); }
    hide Recyclable, Run, Assign, KnownIds;
    if pair in t.byPair {
      RunTwo(t, PutToApp(t.byPair[pair], pair), PutToApp(t.byPair[pair], pair));
    } else if ReverseOf(t, pair) != {} {
      var id := Least(ReverseOf(t, pair));
      assert id in ReverseOf(t, pair) && AllocateTail(t, pair, token) == ([PutByPair(pair, id)], Assigned(id));
      RunTwo(t, PutByPair(pair, id), PutByPair(pair, id));
      forall x | x in t.toApp && t.toApp[x] == pair ensures id <= x { assert x in ReverseOf(t, pair); }
    } else {
      forall x | x in t.toApp ensures t.toApp[x] != pair { assert x !in ReverseOf(t, pair); }
      FreshIs(t);
      if AllocateTail(t, pair, token).1.Assigned? { NewIdResult(t, pair, token); }
      hide Reusable, FreshId;
    }
  }

  lemma FreshIs(t: Store)
    ensures var id := FreshId(t);
            && (forall known | known in KnownIds(t, LifecycleOf(t)) :: known < id)
            && (SafeCounter(t.nextId) ==> t.nextId.value <= id)
            && (id > 0 && !(SafeCounter(t.nextId) && t.nextId.value == id) ==> id - 1 in KnownIds(t, LifecycleOf(t)))
  {
    hide KnownIds;
  }

  // ---- retirement and release ----

  /** Retiring puts the id into quarantine, off the free list and out of the reverse map; of the forward map goes the key that named it back. */
  lemma RetireIs(s: Store, id: nat)
    ensures var (t, r) := (Initialized(s), Run(s, RetirePlan(s, id)));
            && id in Pending(r) && id !in r.freeIds && id !in r.toApp
            && Pending(r) == Pending(t) + {id} && r.freeIds == t.freeIds - {id} && r.nextId == s.nextId
            && LifecycleOf(r).assignments == LifecycleOf(s).assignments
            && (forall other | other != id :: (other in r.toApp <==> other in s.toApp) && (other in s.toApp ==> r.toApp[other] == s.toApp[other]))
            && (forall p :: p in r.byPair <==> p in s.byPair && !(id in s.toApp && s.toApp[id] == p && s.byPair[p] == id))
            && forall p | p in r.byPair :: r.byPair[p] == s.byPair[p]
  {
    RetireResult(s, id);
    InitCareful(s);
    hide Run, RetirePlan, InitPlan;
  }

  /** A release retires exactly when both maps name the pair and the id; otherwise nothing is written. */
  lemma ReleaseIs(s: Store, pair: Pair, id: nat)
    ensures ReleasePlan(s, pair, id)
         == if pair in s.byPair && s.byPair[pair] == id && id in s.toApp && s.toApp[id] == pair then RetirePlan(s, id) else []
  {
  }

  /** A pair is named by a call with this user and this app, where an absent one stands for any. */
  ghost predicate Named(user: Option<string>, app: Option<string>, p: Pair) {
    (user == None || user == Some(p.user)) && (app == None || app == Some(p.app))
  }

  /**
   * Which ids a selective retirement takes, on any storage: those that the reverse map gives to a pair that is named, and those
   * that only the forward map knows, of a named pair; never an origin that belongs to another pair.
   */
  lemma SelectionIs(s: Store, user: Option<string>, app: Option<string>, id: nat)
    ensures id in s.toApp ==> (id in SelectedIds(s, user, app) <==> Named(user, app, s.toApp[id]))
    ensures id !in s.toApp ==> (id in SelectedIds(s, user, app) <==> exists p :: p in s.byPair && s.byPair[p] == id && Named(user, app, p))
  {
    forall p ensures Matches(user, app, p) <==> Named(user, app, p) { }
    hide Matches, Named;
  }

  lemma {:induction false} DropPairsIs(s: Store, pairs: seq<Pair>)
    ensures var r := Run(s, DropPairs(pairs));
            && r.toApp == s.toApp && r.lifecycle == s.lifecycle && r.freeIds == s.freeIds
            && (forall p :: p in r.byPair <==> p in s.byPair && p !in pairs) && forall p | p in r.byPair :: r.byPair[p] == s.byPair[p]
    decreases |pairs|
  {
    if pairs != [] {
      assert DropPairs(pairs)[1..] == DropPairs(pairs[1..]);
      DropPairsIs(Exec(s, DropByPair(pairs[0])), pairs[1..]);
    }
  }

  /** In quarantine, and mapped neither way. */
  ghost predicate Gone(s: Store, id: nat) {
    id in Pending(s) && id !in s.toApp && forall p | p in s.byPair :: s.byPair[p] != id
  }

  lemma RetireOneIs(s: Store, r: Retirement)
    requires AllStrays(s, r)
    ensures var t := Run(s, RetireOne(s, r)); Gone(t, r.id) && forall id | Gone(s, id) :: Gone(t, id)
  {
    var after := Run(s, RetirePlan(s, r.id));
    RunConcat(s, RetirePlan(s, r.id), DropPairs(r.stray));
    RetireIs(s, r.id);
    DropPairsIs(after, r.stray);
    InitCareful(s);
    hide Run, RetirePlan, DropPairs, InitPlan;
  }

  /** On any storage, a selective retirement puts every selected id into quarantine and leaves it mapped neither way. */
  lemma {:induction false} RetireForQuarantines(s: Store, rs: seq<Retirement>)
    requires Thorough(s, rs)
    ensures forall id | id in Ids(rs) :: Gone(Run(s, RetireForPlan(s, rs)), id)
    ensures forall id | Gone(s, id) :: Gone(Run(s, RetireForPlan(s, rs)), id)
    decreases |rs|
  {
    hide Run, RetireOne, Gone, AllStrays;
    if rs == [] {
      RunNothing(s);
    } else {
      var n := |rs| - 1;
      RetireForQuarantines(s, rs[..n]);
      RunLastRetirement(s, rs);
      RetireOneIs(Run(s, RetireForPlan(s, rs[..n])), rs[n]);
      hide RetireForPlan;
    }
  }

  // ---- operations of a tab ----

  /** The writes that each operation makes. */
  lemma PlansAre(s: Store, pair: Pair, token: nat, id: nat, rs: seq<Retirement>)
    ensures PlanOf(s, Op.Allocate(pair, token)) == AllocatePlan(s, pair, token)
    ensures PlanOf(s, Op.Release(pair, id)) == ReleasePlan(s, pair, id)
    ensures PlanOf(s, Op.Retire(id)) == RetirePlan(s, id)
    ensures PlanOf(s, Op.RetireFor(rs)) == RetireForPlan(s, rs)
    ensures PlanOf(s, Op.Maintain) == MaintainPlan(s)
  {
    hide AllocatePlan, ReleasePlan, RetirePlan, RetireForPlan, MaintainPlan;
  }

  /** A tab that gets the mapping lock and is not interrupted makes all writes of its operation, and lets go of the lock. */
  lemma OperationCompletes(s: State, tab: nat, op: Op) returns (states: seq<State>, steps: seq<Step>)
    requires s.mapping.None? && (op.RetireFor? ==> Thorough(s.store, op.rs))
    ensures |states| == |steps| + 1 && states[0] == s && forall k | 0 <= k < |steps| :: Next(states[k], steps[k], states[k + 1])
    ensures states[|steps|] == s.(store := Run(s.store, PlanOf(s.store, op)))
  {
    hide PlanOf, Run, Thorough;
    var begun := s.(mapping := Some(Holder(tab, PlanOf(s.store, op), None)));
    assert Next(s, Begin(tab, op), begun);
    var written, writes := WriteAll(begun, tab);
    var done := written[|writes|];
    assert Next(done, Unlock, done.(mapping := None));
    states, steps := [s] + written + [done.(mapping := None)], [Begin(tab, op)] + writes + [Unlock];
    Joined(s, Begin(tab, op), written, writes, Unlock, done.(mapping := None));
  }

  lemma Joined(s: State, first: Step, states: seq<State>, steps: seq<Step>, last: Step, s': State)
    requires |states| == |steps| + 1 && Next(s, first, states[0]) && Next(states[|steps|], last, s')
    requires forall k | 0 <= k < |steps| :: Next(states[k], steps[k], states[k + 1])
    ensures var all, every := [s] + states + [s'], [first] + steps + [last];
            forall k | 0 <= k < |every| :: Next(all[k], every[k], all[k + 1])
  {
    hide Next;
    var all, every := [s] + states + [s'], [first] + steps + [last];
    forall k | 0 <= k < |every| ensures Next(all[k], every[k], all[k + 1]) {
      if 0 < k <= |steps| {
        assert all[k] == states[k - 1] && all[k + 1] == states[k] && every[k] == steps[k - 1];
      } else if k > 0 {
        assert all[k] == states[|steps|] && all[k + 1] == s' && every[k] == last;
      }
    }
  }

  lemma {:induction false} WriteAll(s: State, tab: nat) returns (states: seq<State>, steps: seq<Step>)
    requires s.mapping.Some? && s.mapping.value.tab == tab && s.mapping.value.freeing.None?
    ensures |states| == |steps| + 1 && states[0] == s && forall k | 0 <= k < |steps| :: Next(states[k], steps[k], states[k + 1])
    ensures states[|steps|] == s.(store := Run(s.store, s.mapping.value.writes), mapping := Some(Holder(tab, [], None)))
    decreases |s.mapping.value.writes|
  {
    var writes := s.mapping.value.writes;
    if writes == [] {
      states, steps := [s], [];
    } else {
      var next := s.(store := Exec(s.store, writes[0]), mapping := Some(Holder(tab, writes[1..], None)));
      assert Next(s, WriteOne, next);
      hide Next;
      var more, rest := WriteAll(next, tab);
      states, steps := [s] + more, [WriteOne] + rest;
      assert Run(s.store, writes) == Run(Exec(s.store, writes[0]), writes[1..]);
      forall k | 0 <= k < |steps| ensures Next(states[k], steps[k], states[k + 1]) {
        if k > 0 { assert states[k] == more[k - 1] && steps[k] == rest[k - 1] && states[k + 1] == more[k]; }
      }
    }
  }

  // ---- reservations ----

  /**
   * A tab that opens an app gets the origin exactly when the forward map still names it for the pair, and the reverse map, read
   * before, named nobody else.
   */
  lemma MatchIs(s: State, use: nat)
    requires Enabled(s, Match(use))
    ensures var (u, s') := (s.uses[use], Apply(s, Match(use)));
            var granted := u.pair in s.store.byPair && s.store.byPair[u.pair] == u.id && (u.phase.reverse == None || u.phase.reverse == Some(u.pair));
            && s'.store == s.store && s'.cleaners == s.cleaners && s'.mapping == s.mapping
            && (forall other | other != use :: (other in s'.uses <==> other in s.uses) && (other in s.uses ==> s'.uses[other] == s.uses[other]))
            && (granted <==> use in s'.uses) && (granted ==> s'.uses[use] == Use(u.tab, u.id, u.pair, Active))
  {
  }

  /** Where nobody interferes, a pair gets the origin that the maps give it, also when the reverse half was never written. */
  lemma ReservationSucceeds(s: State, use: nat, tab: nat, id: nat, pair: Pair)
    requires use !in s.uses && forall other | other in s.cleaners :: s.cleaners[other].id != id
    requires pair in s.store.byPair && s.store.byPair[pair] == id && (id in s.store.toApp ==> s.store.toApp[id] == pair)
    ensures Enabled(s, Reserve(use, tab, id, pair))
    ensures var a := Apply(s, Reserve(use, tab, id, pair));
            && Enabled(a, ReadReverse(use))
            && var b := Apply(a, ReadReverse(use));
            && Enabled(b, Match(use))
            && var c := Apply(b, Match(use));
            && use in c.uses && c.uses[use] == Use(tab, id, pair, Active) && c.store == s.store
            && id in c.tenants && pair in c.tenants[id]
  {
    var a := Apply(s, Reserve(use, tab, id, pair));
    var b := Apply(a, ReadReverse(use));
    assert b.uses[use] == Use(tab, id, pair, ReverseRead(if id in s.store.toApp then Some(s.store.toApp[id]) else None));
  }

  // ---- cleanups ----

  /** Where nobody interferes, a cleanup of a quarantined id that nobody uses or maps clears its origin and sets it free. */
  lemma CleanupFrees(s: State, tab: nat, id: nat) returns (states: seq<State>, steps: seq<Step>)
    requires s.mapping.None? && LifecycleOf(s.store).current && tab !in s.cleaners
    requires (forall use | use in s.uses :: s.uses[use].id != id) && forall other | other in s.cleaners :: s.cleaners[other].id != id
    requires id in Pending(s.store) && id !in s.store.toApp && forall p | p in s.store.byPair :: s.store.byPair[p] != id
    ensures steps == [Exclude(tab, id), Check(tab), Clear(tab), Commit(tab), WriteOne, WriteOne, Unlock, GiveUp(tab)]
    ensures |states| == 9 && states[0] == s && forall k | 0 <= k < 8 :: Next(states[k], steps[k], states[k + 1])
    ensures var r := states[8];
            && id in r.store.freeIds && id !in Pending(r.store) && r.mapping.None? && r.cleaners == s.cleaners && r.uses == s.uses
            && r.store.freeIds == s.store.freeIds + {id} && Pending(r.store) == Pending(s.store) - {id}
            && r.store.byPair == s.store.byPair && r.store.toApp == s.store.toApp && r.store.nextId == s.store.nextId
            && id in r.tenants && r.tenants[id] == {}
  {
    steps := [Exclude(tab, id), Check(tab), Clear(tab), Commit(tab), WriteOne, WriteOne, Unlock, GiveUp(tab)];
    var s1 := s.(cleaners := s.cleaners[tab := Cleaner(id, Acquired)]);
    var s2 := s.(cleaners := s.cleaners[tab := Cleaner(id, Checked)]);
    var s3 := s.(cleaners := s.cleaners[tab := Cleaner(id, Cleared)], tenants := s.tenants[id := {}]);
    var plan := FreePlan(s.store, id);
    var s4 := s3.(cleaners := s.cleaners[tab := Cleaner(id, Committing)], mapping := Some(Holder(tab, plan, Some(id))));
    var s5 := s4.(store := Exec(s.store, plan[0]), mapping := Some(Holder(tab, [plan[1]], Some(id))));
    var s6 := s5.(store := Exec(s5.store, plan[1]), mapping := Some(Holder(tab, [], Some(id))));
    var s7 := s6.(mapping := None);
    var s8 := s7.(cleaners := s.cleaners);
    states := [s, s1, s2, s3, s4, s5, s6, s7, s8];
    assert s.cleaners[tab := Cleaner(id, Committing)] - {tab} == s.cleaners;
    CleanupBegins(s, tab, id);
    CleanupCommits(s, s3, tab, id);
    hide Next, FreePlan;
  }

  lemma CleanupBegins(s: State, tab: nat, id: nat)
    requires s.mapping.None? && LifecycleOf(s.store).current && tab !in s.cleaners
    requires (forall use | use in s.uses :: s.uses[use].id != id) && forall other | other in s.cleaners :: s.cleaners[other].id != id
    requires id in Pending(s.store) && id !in s.store.toApp && forall p | p in s.store.byPair :: s.store.byPair[p] != id
    ensures var s1 := s.(cleaners := s.cleaners[tab := Cleaner(id, Acquired)]);
            var s2 := s.(cleaners := s.cleaners[tab := Cleaner(id, Checked)]);
            var s3 := s.(cleaners := s.cleaners[tab := Cleaner(id, Cleared)], tenants := s.tenants[id := {}]);
            Next(s, Exclude(tab, id), s1) && Next(s1, Check(tab), s2) && Next(s2, Clear(tab), s3) && Eligible(s.store, id)
  {
    assert Eligible(s.store, id);
    hide Eligible;
    var c := s.cleaners[tab := Cleaner(id, Acquired)];
    assert c[tab := Cleaner(id, Checked)] == s.cleaners[tab := Cleaner(id, Checked)];
    assert s.cleaners[tab := Cleaner(id, Checked)][tab := Cleaner(id, Cleared)] == s.cleaners[tab := Cleaner(id, Cleared)];
  }

  lemma CleanupCommits(s: State, s3: State, tab: nat, id: nat)
    requires s3 == s.(cleaners := s.cleaners[tab := Cleaner(id, Cleared)], tenants := s3.tenants)
    requires s.mapping.None? && tab !in s.cleaners && Eligible(s.store, id)
    ensures var plan := FreePlan(s.store, id);
            var s4 := s3.(cleaners := s.cleaners[tab := Cleaner(id, Committing)], mapping := Some(Holder(tab, plan, Some(id))));
            var s5 := s4.(store := Exec(s.store, plan[0]), mapping := Some(Holder(tab, [plan[1]], Some(id))));
            var s6 := s5.(store := Exec(s5.store, plan[1]), mapping := Some(Holder(tab, [], Some(id))));
            var s7 := s6.(mapping := None);
            var s8 := s7.(cleaners := s.cleaners);
            && Next(s3, Commit(tab), s4) && Next(s4, WriteOne, s5) && Next(s5, WriteOne, s6) && Next(s6, Unlock, s7) && Next(s7, GiveUp(tab), s8)
            && s8.store == s.store.(freeIds := s.store.freeIds + {id},
                                    lifecycle := Some(LifecycleOf(s.store).(current := true, pending := Pending(s.store) - {id})))
  {
    hide Eligible;
    var plan := FreePlan(s.store, id);
    assert plan[1..] == [plan[1]] && [plan[1]][1..] == [];
    assert s.cleaners[tab := Cleaner(id, Cleared)][tab := Cleaner(id, Committing)] == s.cleaners[tab := Cleaner(id, Committing)];
    assert s.cleaners[tab := Cleaner(id, Committing)] - {tab} == s.cleaners;
  }

  /** A tab that ends a use, gives up a cleanup, lets go of the mapping lock or dies holds it no longer, and nobody else loses a lock. */
  lemma LocksReleased(s: State, step: Step)
    requires Enabled(s, step) && (step.EndUse? || step.GiveUp? || step.Unlock? || step.Crash?)
    ensures var s' := Apply(s, step);
            && s'.store == s.store && s'.tenants == s.tenants
            && match step
               case EndUse(use) => s'.uses == s.uses - {use} && s'.cleaners == s.cleaners && s'.mapping == s.mapping
               case GiveUp(tab) => tab !in s'.cleaners && s'.cleaners == s.cleaners - {tab} && s'.uses == s.uses
               case Unlock => s'.mapping == None && s'.uses == s.uses && s'.cleaners == s.cleaners
               case Crash(tab) =>
                 && (forall use :: use in s'.uses <==> use in s.uses && s.uses[use].tab != tab)
                 && (forall use | use in s'.uses :: s'.uses[use] == s.uses[use])
                 && s'.cleaners == s.cleaners - {tab}
                 && s'.mapping == (if s.mapping.Some? && s.mapping.value.tab == tab then None else s.mapping)
  {
  }
}
