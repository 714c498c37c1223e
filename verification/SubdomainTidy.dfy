/** The shape of the storage whenever the mapping lock is released and no operation was interrupted. */
module SubdomainTidy {
  import opened Basics
  import opened Subdomains
  import opened SubdomainLaws

  /** The forward and reverse maps are inverse to each other. */
  ghost predicate Inverse(s: Store) {
    && (forall p | p in s.byPair :: s.byPair[p] in s.toApp && s.toApp[s.byPair[p]] == p)
    && (forall id | id in s.toApp :: s.toApp[id] in s.byPair && s.byPair[s.toApp[id]] == id)
  }

  /** Mapped, quarantined and free ids are pairwise disjoint. */
  ghost predicate Disjoint(s: Store) {
    s.toApp.Keys !! Pending(s) && s.toApp.Keys !! s.freeIds && Pending(s) !! s.freeIds
  }

  /** Where an id can be: mapped, quarantined or free. */
  ghost predicate Accounted(s: Store, id: nat) {
    Mapped(s, id) || id in Pending(s) || id in s.freeIds
  }

  ghost predicate AllAccounted(s: Store) {
    forall id | id in LifecycleOf(s).assignments :: Accounted(s, id)
  }

  /**
   * Storage in order, read as the next operation reads it, so that an unversioned free list counts as quarantined.
   * Ids of an earlier version need no assignment token.
   */
  ghost predicate Orderly(s: Store) {
    Inverse(s) && Disjoint(Initialized(s)) && AllAccounted(Initialized(s))
  }

  function Counter(s: Store): int {
    if s.nextId.Some? then s.nextId.value else 0
  }

  /** The counter is sound and exceeds every id that the storage knows in any way. */
  ghost predicate Counted(s: Store) {
    && (s.nextId.Some? ==> SafeCounter(s.nextId))
    && forall id | id in KnownIds(s, LifecycleOf(s)) :: id < Counter(s)
  }

  ghost predicate Tidy(s: Store) { LifecycleOf(s).current && Orderly(s) && Counted(s) }

  lemma MappedIsReverse(s: Store, id: nat)
    requires Inverse(s)
    ensures Mapped(s, id) <==> id in s.toApp
  {
  }

  /** What the storage knows: mapped ids, quarantined and free ones, and ids with a token. */
  lemma KnownIs(s: Store, id: nat)
    ensures id in KnownIds(s, LifecycleOf(s)) <==> Accounted(s, id) || id in LifecycleOf(s).assignments
  {
    if p :| p in s.byPair && s.byPair[p] == id { assert id in set q | q in s.byPair :: s.byPair[q]; }
  }

  /** Initializing the lifecycle changes neither the maps nor what is known, and makes the version current. */
  lemma InitOrderly(s: Store)
    ensures var t := Initialized(s);
            && LifecycleOf(t).current && InitPlan(t) == [] && Initialized(t) == t
            && t.byPair == s.byPair && t.toApp == s.toApp && t.nextId == s.nextId
            && LifecycleOf(t).assignments == LifecycleOf(s).assignments
            && (Orderly(s) <==> Orderly(t)) && (Counted(s) <==> Counted(t))
            && KnownIds(t, LifecycleOf(t)) == KnownIds(s, LifecycleOf(s))
  {
    InitCareful(s);
    var t := Initialized(s);
    assert KnownIds(t, LifecycleOf(t)) == KnownIds(s, LifecycleOf(s)) by { hide Run, InitPlan; }
    RunNothing(t);
    hide Run, KnownIds, Disjoint, AllAccounted;
  }

  /** Storage of an earlier version: inverse maps, a free list without mapped ids, no lifecycle record, any ids, no tokens. */
  lemma LegacyOrderly(s: Store)
    requires Inverse(s) && s.lifecycle.None? && s.toApp.Keys !! s.freeIds
    ensures Orderly(s) && (Counted(s) ==> Tidy(Initialized(s)))
  {
    InitOrderly(s);
    InitCareful(s);
  }

  // ---- allocation ----

  lemma AssignResult(s: Store, id: nat, pair: Pair, token: nat)
    ensures var r := Run(s, Assign(s, id, pair, token));
            && r.byPair == s.byPair[pair := id] && r.toApp == s.toApp[id := pair]
            && r.freeIds == s.freeIds && r.nextId == s.nextId
            && r.lifecycle == Some(LifecycleOf(s).(assignments := LifecycleOf(s).assignments[id := token]))
  {
    var ws := Assign(s, id, pair, token);
    RunThree(s, ws[0], ws[1], ws[2]);
  }

  /** The store after an allocation that had to take a new id, recycled or fresh. */
  ghost function Given(s: Store, id: nat, pair: Pair, token: nat): Store {
    s.(byPair := s.byPair[pair := id], toApp := s.toApp[id := pair], freeIds := s.freeIds - {id},
       nextId := if Reusable(s) != {} then s.nextId else Some(id + 1),
       lifecycle := Some(LifecycleOf(s).(assignments := LifecycleOf(s).assignments[id := token])))
  }

  lemma NewIdResult(s: Store, pair: Pair, token: nat)
    requires pair !in s.byPair && ReverseOf(s, pair) == {} && AllocateTail(s, pair, token).1.Assigned?
    ensures var id := AllocateTail(s, pair, token).1.id;
            && Run(s, AllocateTail(s, pair, token).0) == Given(s, id, pair, token)
            && id !in Pending(s) && !Mapped(s, id)
            && (if Reusable(s) != {} then id in s.freeIds else id == FreshId(s) && id !in s.freeIds && id + 1 <= MAX_SAFE)
  {
    hide Run, Assign, KnownIds, FreshId, Above, Least;
    if Reusable(s) != {} {
      var id := Least(Reusable(s));
      GivenAfter(s, PutFree(s.freeIds - {id}), id, pair, token);
    } else {
      FreshUnmapped(s);
      var id := FreshId(s);
      GivenAfter(s, PutNext(id + 1), id, pair, token);
      assert s.freeIds - {id} == s.freeIds;
    }
  }

  lemma GivenAfter(s: Store, first: Write, id: nat, pair: Pair, token: nat)
    requires first.PutFree? || first.PutNext?
    ensures Run(s, [first] + Assign(s, id, pair, token)) ==
            Exec(s, first).(byPair := s.byPair[pair := id], toApp := s.toApp[id := pair],
                            lifecycle := Some(LifecycleOf(s).(assignments := LifecycleOf(s).assignments[id := token])))
  {
    RunTwo(s, first, first);
    RunConcat(s, [first], Assign(s, id, pair, token));
    AssignResult(Exec(s, first), id, pair, token);
  }

  /** A fresh id is new and above everything known; when the counter is sound, it is the counter. */
  lemma FreshBeyond(s: Store)
    ensures forall id | id in KnownIds(s, LifecycleOf(s)) :: id < FreshId(s)
    ensures Counted(s) ==> FreshId(s) == Counter(s)
  {
    var known := KnownIds(s, LifecycleOf(s));
    if known != {} { assert Above(known) - 1 in known; }
  }

  lemma GivenOrderly(s: Store, id: nat, pair: Pair, token: nat)
    requires LifecycleOf(s).current && Orderly(s) && pair !in s.byPair && id !in Pending(s) && !Mapped(s, id)
    ensures Orderly(Given(s, id, pair, token)) && LifecycleOf(Given(s, id, pair, token)).current
  {
    var r := Given(s, id, pair, token);
    InitOrderly(s);
    InitCareful(s);
    InitCareful(r);
    assert id !in s.toApp;
    forall p | p in s.byPair ensures s.byPair[p] != id { assert s.byPair[p] in s.toApp; }
    assert Inverse(r);
    forall x ensures Mapped(r, x) <==> x in s.toApp || x == id { MappedIsReverse(r, x); }
    forall x ensures Mapped(s, x) <==> x in s.toApp { MappedIsReverse(s, x); }
    hide Mapped, Inverse, Run, InitPlan, Initialized, Reusable;
    assert Disjoint(r) && AllAccounted(r);
  }

  /** After a fresh id the counter is sound whatever it was; a recycled id leaves it as it was. */
  lemma GivenCounted(s: Store, id: nat, pair: Pair, token: nat)
    requires Inverse(s) && pair !in s.byPair && !Mapped(s, id)
    requires if Reusable(s) != {} then id in s.freeIds else id == FreshId(s) && id + 1 <= MAX_SAFE
    ensures Counted(s) || Reusable(s) == {} ==> Counted(Given(s, id, pair, token))
  {
    var r := Given(s, id, pair, token);
    FreshBeyond(s);
    forall x | x in KnownIds(r, LifecycleOf(r)) ensures x in KnownIds(s, LifecycleOf(s)) || x == id {
      KnownIs(r, x);
      KnownIs(s, x);
      if Mapped(r, x) && x != id { GivenMapped(s, id, pair, token, x); }
    }
    KnownIs(s, id);
    hide KnownIds, Reusable, FreshId, Inverse, Mapped;
  }

  lemma GivenMapped(s: Store, id: nat, pair: Pair, token: nat, x: nat)
    requires Mapped(Given(s, id, pair, token), x) && x != id
    ensures Mapped(s, x)
  {
    var r := Given(s, id, pair, token);
    if x !in s.toApp {
      var p :| p in r.byPair && r.byPair[p] == x;
      assert p in s.byPair && s.byPair[p] == x;
    }
  }

  /**
   * A pair that has an id keeps it and the maps do not change; otherwise it gets an id that was free or not known
   * in any way, and every other pair keeps its own. Storage stays in order, and a sound counter sound.
   */
  lemma AllocateOrderly(s: Store, pair: Pair, token: nat)
    requires Orderly(s)
    ensures var r := Run(s, AllocatePlan(s, pair, token));
            var result := AllocateTail(Initialized(s), pair, token).1;
            && Orderly(r) && LifecycleOf(r).current && (Counted(s) ==> Counted(r))
            && (pair in s.byPair ==> r == Initialized(s) && result == Assigned(s.byPair[pair]))
            && (pair !in s.byPair && result.Assigned? ==>
                  && r.byPair == s.byPair[pair := result.id] && r.toApp == s.toApp[result.id := pair]
                  && (result.id in Initialized(s).freeIds || result.id !in KnownIds(s, LifecycleOf(s))))
            && (result.Exhausted? ==> r == Initialized(s))
            && !result.MappedToAnother?
  {
    hide Run, AllocateTail, Orderly, Counted, KnownIds, InitPlan;
    InitOrderly(s);
    var t := Initialized(s);
    RunConcat(s, InitPlan(s), AllocateTail(t, pair, token).0);
    AllocateCurrent(t, pair, token);
  }

  lemma AllocateCurrent(t: Store, pair: Pair, token: nat)
    requires LifecycleOf(t).current && Orderly(t)
    ensures var r := Run(t, AllocateTail(t, pair, token).0);
            var result := AllocateTail(t, pair, token).1;
            && Orderly(r) && LifecycleOf(r).current && (Counted(t) ==> Counted(r))
            && (pair in t.byPair ==> r == t && result == Assigned(t.byPair[pair]))
            && (pair !in t.byPair && result.Assigned? ==>
                  && r.byPair == t.byPair[pair := result.id] && r.toApp == t.toApp[result.id := pair]
                  && (result.id in t.freeIds || result.id !in KnownIds(t, LifecycleOf(t))))
            && (result.Exhausted? ==> r == t)
            && !result.MappedToAnother?
  {
    RunNothing(t);
    NamedBothWays(t, pair);
    hide Run, Inverse, Disjoint, AllAccounted, KnownIds, FreshId, Least, Above, Initialized, Counted;
    if pair !in t.byPair && AllocateTail(t, pair, token).1.Assigned? {
      var id := AllocateTail(t, pair, token).1.id;
      NewIdResult(t, pair, token);
      FreshUnmapped(t);
      GivenOrderly(t, id, pair, token);
      GivenCounted(t, id, pair, token);
      hide AllocateTail, Orderly;
    }
  }

  lemma NamedBothWays(t: Store, pair: Pair)
    requires Inverse(t)
    ensures ReverseOf(t, pair) == {} || pair in t.byPair
    ensures pair in t.byPair ==> t.byPair[pair] in t.toApp && t.toApp[t.byPair[pair]] == pair
  {
    forall id | id in ReverseOf(t, pair) ensures pair in t.byPair { assert t.toApp[id] in t.byPair; }
  }

  // ---- retiring and freeing ----

  lemma RetireResult(s: Store, id: nat)
    ensures var (t, r) := (Initialized(s), Run(s, RetirePlan(s, id)));
            && r.toApp == s.toApp - {id} && r.freeIds == t.freeIds - {id} && r.nextId == s.nextId
            && r.lifecycle == Some(LifecycleOf(t).(pending := Pending(t) + {id})) && LifecycleOf(r).current
            && r.byPair == if id in s.toApp && s.toApp[id] in s.byPair && s.byPair[s.toApp[id]] == id then s.byPair - {s.toApp[id]} else s.byPair
  {
    hide Run, RetireTail, InitPlan, Orderly, Counted;
    InitOrderly(s);
    RunConcat(s, InitPlan(s), RetireTail(Initialized(s), id));
    RetireTailResult(Initialized(s), id);
  }

  /** Retiring any id, known or not, takes away its mapping and no other, and keeps storage in order. */
  lemma RetireOrderly(s: Store, id: nat)
    requires Orderly(s)
    ensures var r := Run(s, RetirePlan(s, id));
            && Orderly(r) && LifecycleOf(r).current && id in Pending(r)
            && r.toApp == s.toApp - {id}
            && r.byPair == (if id in s.toApp then s.byPair - {s.toApp[id]} else s.byPair)
            && LifecycleOf(r).assignments == LifecycleOf(s).assignments
            && (Counted(r) <==> Counted(s) && id < Counter(s))
  {
    RetireResult(s, id);
    InitOrderly(s);
    hide Run, RetirePlan, InitPlan, Initialized;
    var t, r := Initialized(s), Run(s, RetirePlan(s, id));
    RetiredOrderly(t, r, id);
    RetiredCounted(t, r, id);
    hide Orderly, Counted;
  }

  ghost predicate Retired(t: Store, r: Store, id: nat) {
    && r.toApp == t.toApp - {id} && r.freeIds == t.freeIds - {id} && r.nextId == t.nextId
    && r.lifecycle == Some(LifecycleOf(t).(pending := Pending(t) + {id}))
    && r.byPair == if id in t.toApp then t.byPair - {t.toApp[id]} else t.byPair
  }

  lemma RetiredOrderly(t: Store, r: Store, id: nat)
    requires LifecycleOf(t).current && Orderly(t) && Retired(t, r, id)
    ensures Orderly(r)
  {
    InitCareful(t);
    InitCareful(r);
    assert Inverse(r);
    forall x ensures Mapped(t, x) <==> x in t.toApp { MappedIsReverse(t, x); }
    forall x ensures Mapped(r, x) <==> x in r.toApp { MappedIsReverse(r, x); }
    hide Mapped, Inverse, Run, InitPlan, Initialized;
    assert AllAccounted(r) && Disjoint(r);
  }

  lemma RetiredCounted(t: Store, r: Store, id: nat)
    requires Inverse(t) && Retired(t, r, id)
    ensures Counted(r) <==> Counted(t) && id < Counter(t)
  {
    forall x ensures Mapped(t, x) <==> x in t.toApp { MappedIsReverse(t, x); }
    assert Inverse(r);
    forall x ensures Mapped(r, x) <==> x in r.toApp { MappedIsReverse(r, x); }
    hide Mapped, Inverse;
    forall x ensures x in KnownIds(r, LifecycleOf(r)) <==> x in KnownIds(t, LifecycleOf(t)) || x == id {
      KnownIs(t, x);
      KnownIs(r, x);
    }
    hide KnownIds;
    assert KnownIds(r, LifecycleOf(r)) == KnownIds(t, LifecycleOf(t)) + {id};
    assert id in KnownIds(r, LifecycleOf(r));
  }

  /** A confirmed cleanup moves the id from quarantine to the free list. */
  lemma FreeOrderly(s: Store, id: nat)
    requires LifecycleOf(s).current && Orderly(s) && Eligible(s, id)
    ensures var r := Run(s, FreePlan(s, id));
            && Orderly(r) && LifecycleOf(r).current && (Counted(s) <==> Counted(r))
            && r.freeIds == s.freeIds + {id} && Pending(r) == Pending(s) - {id} && r.byPair == s.byPair && r.toApp == s.toApp
  {
    var state := LifecycleOf(s);
    RunTwo(s, PutFree(s.freeIds + {id}), PutLifecycle(state.(current := true, pending := state.pending - {id})));
    var r := Run(s, FreePlan(s, id));
    InitCareful(s);
    InitCareful(r);
    forall x ensures Mapped(s, x) <==> Mapped(r, x) { MapsSame(s, r, x); }
    assert id !in s.toApp;
    hide Mapped, Run, InitPlan, Initialized, FreePlan;
    forall x ensures x in KnownIds(r, LifecycleOf(r)) <==> x in KnownIds(s, LifecycleOf(s)) {
      KnownIs(s, x);
      KnownIs(r, x);
    }
    assert Inverse(r) && Disjoint(r) && AllAccounted(r);
    hide KnownIds;
  }

  lemma MapsSame(s: Store, r: Store, id: nat)
    requires s.byPair == r.byPair && s.toApp == r.toApp
    ensures Mapped(s, id) <==> Mapped(r, id)
  {
    if p :| p in s.byPair && s.byPair[p] == id { assert p in r.byPair && r.byPair[p] == id; }
    if p :| p in r.byPair && r.byPair[p] == id { assert p in s.byPair && s.byPair[p] == id; }
  }

  /** Releasing is for the owner only: it takes away exactly the pair's own mapping. */
  lemma ReleaseOrderly(s: Store, pair: Pair, id: nat)
    requires Orderly(s)
    ensures var r := Run(s, ReleasePlan(s, pair, id));
            && Orderly(r) && (Counted(s) ==> Counted(r)) && (LifecycleOf(s).current ==> LifecycleOf(r).current)
            && r.byPair == if pair in s.byPair && s.byPair[pair] == id then s.byPair - {pair} else s.byPair
  {
    RunNothing(s);
    if Owns(s, pair, id) {
      RetireOrderly(s, id);
      KnownIs(s, id);
    }
    hide Run, RetirePlan;
  }

  // ---- maintenance ----

  /** A maintenance pass changes nothing but the quarantine, which takes in the lost ids, and the counter. */
  lemma MaintainTailEffect(t: Store)
    ensures var r := Run(t, MaintainTail(t));
            && r.byPair == t.byPair && r.toApp == t.toApp && r.freeIds == t.freeIds
            && (LifecycleOf(t).current ==> LifecycleOf(r).current)
            && LifecycleOf(r).assignments == LifecycleOf(t).assignments && Pending(r) == Pending(t) + LostIds(t)
            && r.nextId == NextAfter(t, Above(KnownIds(t, LifecycleOf(t).(pending := Pending(t) + LostIds(t)))))
  {
    hide LostIds, KnownIds, Above;
    var lost := LostIds(t);
    var next := LifecycleOf(t).(pending := Pending(t) + lost);
    var minimum := Above(KnownIds(t, next));
    var ws := MaintainTail(t);
    RunNothing(t);
    RunTwo(t, PutLifecycle(next), PutNext(minimum));
    RunTwo(t, PutNext(minimum), PutNext(minimum));
    assert [PutLifecycle(next)] + [PutNext(minimum)] == [PutLifecycle(next), PutNext(minimum)];
    assert [] + [PutNext(minimum)] == [PutNext(minimum)] && [PutLifecycle(next)] + [] == [PutLifecycle(next)];
    assert ws == [] || ws == [PutLifecycle(next)] || ws == [PutNext(minimum)] || ws == [PutLifecycle(next), PutNext(minimum)];
    hide Run;
    if lost == {} { assert Pending(t) + lost == Pending(t); }
  }

  /** The repaired counter. */
  function NextAfter(t: Store, minimum: nat): Option<int> {
    if minimum <= MAX_SAFE && ((t.nextId.Some? && !SafeCounter(t.nextId))
                               || (minimum > 0 && (!SafeCounter(t.nextId) || t.nextId.value < minimum))) then Some(minimum)
    else t.nextId
  }

  lemma MaintainResult(s: Store)
    ensures var (t, r) := (Initialized(s), Run(s, MaintainPlan(s)));
            && r.byPair == s.byPair && r.toApp == s.toApp && r.freeIds == t.freeIds && LifecycleOf(r).current
            && LifecycleOf(r).assignments == LifecycleOf(s).assignments && Pending(r) == Pending(t) + LostIds(t)
            && r.nextId == NextAfter(t, Above(KnownIds(t, LifecycleOf(t).(pending := Pending(t) + LostIds(t)))))
  {
    hide Run, InitPlan, MaintainTail, LostIds, KnownIds, Above, NextAfter, Orderly, Counted;
    InitOrderly(s);
    var t := Initialized(s);
    RunConcat(s, InitPlan(s), MaintainTail(t));
    MaintainTailEffect(t);
  }

  /**
   * One maintenance pass puts storage with inverse, disjoint maps in order, whatever ids lack a token or got lost,
   * and makes the counter sound exactly when every known id leaves room for one.
   */
  lemma MaintainRestores(s: Store)
    requires Inverse(s) && Disjoint(Initialized(s))
    ensures var r := Run(s, MaintainPlan(s));
            && Orderly(r) && LifecycleOf(r).current && r.byPair == s.byPair && r.toApp == s.toApp
            && (Tidy(r) <==> forall id | id in KnownIds(s, LifecycleOf(s)) :: id + 1 <= MAX_SAFE)
  {
    MaintainResult(s);
    InitOrderly(s);
    var t, r := Initialized(s), Run(s, MaintainPlan(s));
    InitCareful(r);
    forall x ensures Mapped(t, x) <==> Mapped(r, x) { MapsSame(t, r, x); }
    forall x ensures Mapped(t, x) <==> x in t.toApp { MappedIsReverse(t, x); }
    hide Run, MaintainPlan, InitPlan, Initialized, Mapped, Above, NextAfter;
    assert AllAccounted(r);
    assert Disjoint(r);
    assert Inverse(r);
    KnownAfter(t, r);
    hide Inverse, Disjoint, AllAccounted;
    Repaired(t, r);
  }

  /** What a pass does to what is known: nothing. */
  lemma KnownAfter(t: Store, r: Store)
    requires r.byPair == t.byPair && r.toApp == t.toApp && r.freeIds == t.freeIds
    requires LifecycleOf(r).assignments == LifecycleOf(t).assignments && Pending(r) == Pending(t) + LostIds(t)
    ensures KnownIds(r, LifecycleOf(r)) == KnownIds(t, LifecycleOf(t))
    ensures KnownIds(t, LifecycleOf(t).(pending := Pending(t) + LostIds(t))) == KnownIds(t, LifecycleOf(t))
  {
    assert LostIds(t) <= LifecycleOf(t).assignments.Keys;
    hide LostIds, Mapped;
  }

  lemma Repaired(t: Store, r: Store)
    requires KnownIds(r, LifecycleOf(r)) == KnownIds(t, LifecycleOf(t)) && r.nextId == NextAfter(t, Above(KnownIds(t, LifecycleOf(t))))
    ensures Counted(r) <==> forall id | id in KnownIds(t, LifecycleOf(t)) :: id + 1 <= MAX_SAFE
  {
    var known := KnownIds(t, LifecycleOf(t));
    hide KnownIds;
    if known != {} { assert Above(known) - 1 in known; }
  }

  /** Tidy storage needs no maintenance. */
  lemma MaintainTidy(s: Store)
    requires Tidy(s)
    ensures MaintainPlan(s) == []
  {
    InitCareful(s);
    assert InitPlan(s) == [];
    RunNothing(s);
    hide Run;
    forall id | id in LifecycleOf(s).assignments ensures id !in LostIds(s) { assert Accounted(s, id); }
    assert LostIds(s) == {};
    var next := LifecycleOf(s).(pending := Pending(s) + LostIds(s));
    assert next == LifecycleOf(s);
    var known := KnownIds(s, next);
    hide KnownIds, LostIds, Orderly;
    if known != {} { assert Above(known) - 1 in known; }
  }

  // ---- retiring by user or app ----

  ghost predicate Removed(s: Store, r: Store, ids: set<nat>) {
    && (forall p :: p in r.byPair <==> p in s.byPair && s.byPair[p] !in ids)
    && (forall p | p in r.byPair :: r.byPair[p] == s.byPair[p])
    && r.toApp == s.toApp - ids
    && r.nextId == s.nextId
  }

  /** With inverse maps the retirement of an id leaves no forward key behind. */
  lemma RetireOneExact(s: Store, r: Retirement)
    requires Inverse(s) && AllStrays(s, r)
    ensures var t := Run(s, RetireOne(s, r));
            Inverse(t) && Removed(s, t, {r.id}) && RetireOne(s, r) == RetirePlan(s, r.id)
  {
    RetireResult(s, r.id);
    hide Run, RetirePlan;
    var t := Run(s, RetirePlan(s, r.id));
    assert Inverse(t);
    forall p ensures p !in r.stray {
      if p in t.byPair { assert t.byPair[p] in t.toApp; }
    }
    HasElement(r.stray);
    assert RetireOne(s, r) == RetirePlan(s, r.id);
    assert Removed(s, t, {r.id});
  }

  lemma RunLastRetirement(s: Store, rs: seq<Retirement>)
    requires rs != []
    ensures var n := |rs| - 1;
            var t := Run(s, RetireForPlan(s, rs[..n]));
            Run(s, RetireForPlan(s, rs)) == Run(t, RetireOne(t, rs[n])) && Ids(rs) == Ids(rs[..n]) + {rs[n].id}
  {
    var n := |rs| - 1;
    assert rs[..n] + [rs[n]] == rs;
    RunOneMore(s, rs[..n], rs[n]);
    IdsOneMore(rs[..n], rs[n]);
  }

  ghost predicate Below(rs: seq<Retirement>, limit: int) {
    forall i | 0 <= i < |rs| :: rs[i].id < limit
  }

  /** Retiring a list of ids, any ids, removes exactly their mappings and keeps what was in order in order. */
  lemma {:induction false} RetireForRemoves(s: Store, rs: seq<Retirement>)
    requires Inverse(s) && Thorough(s, rs)
    ensures var r := Run(s, RetireForPlan(s, rs));
            && Inverse(r) && Removed(s, r, Ids(rs))
            && (Orderly(s) ==> Orderly(r)) && (LifecycleOf(s).current ==> LifecycleOf(r).current)
            && (Orderly(s) && Counted(s) && Below(rs, Counter(s)) ==> Counted(r))
    decreases |rs|
  {
    hide Run, RetireOne, RetirePlan, Orderly, Counted, Inverse, AllStrays;
    if rs == [] {
      RunNothing(s);
      assert Ids(rs) == {};
    } else {
      var n := |rs| - 1;
      var t := Run(s, RetireForPlan(s, rs[..n]));
      RetireForRemoves(s, rs[..n]);
      RunLastRetirement(s, rs);
      RetireOneExact(t, rs[n]);
      RetireResult(t, rs[n].id);
      if Orderly(s) { RetireOrderly(t, rs[n].id); }
      hide RetireForPlan;
    }
  }

  /** `retireSubdomainsFor` removes exactly the mappings of the selected pairs, in both directions. */
  lemma RetireForExact(s: Store, user: Option<string>, app: Option<string>, rs: seq<Retirement>)
    requires Inverse(s) && Thorough(s, rs) && Ids(rs) == SelectedIds(s, user, app)
    ensures var r := Run(s, RetireForPlan(s, rs));
            && (forall p :: p in r.byPair <==> p in s.byPair && !Matches(user, app, p))
            && (forall p | p in r.byPair :: r.byPair[p] == s.byPair[p])
            && (forall id :: id in r.toApp <==> id in s.toApp && !Matches(user, app, s.toApp[id]))
            && Inverse(r) && (Orderly(s) ==> Orderly(r)) && (Tidy(s) ==> Tidy(r))
  {
    RetireForRemoves(s, rs);
    SelectedExactly(s, user, app);
    if Tidy(s) { SelectedBelow(s, user, app, rs); }
    hide Inverse, Orderly, Counted, Below, Thorough, SelectedIds, Matches, Run, RetireForPlan, Ids;
  }

  /**
   * What a caller gets: one app of one user, all apps of a user, one app of all users, or everything. The pairs named are
   * gone in both directions, and no other.
   */
  lemma RetireForRemovesNamed(s: Store, u: string, a: string, rs: seq<Retirement>)
    requires Inverse(s) && Thorough(s, rs)
    ensures var r := Run(s, RetireForPlan(s, rs));
            && (Ids(rs) == SelectedIds(s, Some(u), Some(a)) ==>
                  && (forall p :: p in r.byPair <==> p in s.byPair && p != Pair(u, a))
                  && (forall id :: id in r.toApp <==> id in s.toApp && s.toApp[id] != Pair(u, a)))
            && (Ids(rs) == SelectedIds(s, Some(u), None) ==>
                  && (forall p :: p in r.byPair <==> p in s.byPair && p.user != u)
                  && (forall id :: id in r.toApp <==> id in s.toApp && s.toApp[id].user != u))
            && (Ids(rs) == SelectedIds(s, None, Some(a)) ==>
                  && (forall p :: p in r.byPair <==> p in s.byPair && p.app != a)
                  && (forall id :: id in r.toApp <==> id in s.toApp && s.toApp[id].app != a))
            && (Ids(rs) == SelectedIds(s, None, None) ==> r.byPair == map[] && r.toApp == map[])
  {
    hide Inverse, Orderly, Counted, Thorough, SelectedIds, Run, RetireForPlan, Ids;
    if Ids(rs) == SelectedIds(s, Some(u), Some(a)) { RetireForExact(s, Some(u), Some(a), rs); }
    if Ids(rs) == SelectedIds(s, Some(u), None) { RetireForExact(s, Some(u), None, rs); }
    if Ids(rs) == SelectedIds(s, None, Some(a)) { RetireForExact(s, None, Some(a), rs); }
    if Ids(rs) == SelectedIds(s, None, None) { RetireForExact(s, None, None, rs); }
  }

  lemma SelectedBelow(s: Store, user: Option<string>, app: Option<string>, rs: seq<Retirement>)
    requires Counted(s) && Ids(rs) == SelectedIds(s, user, app)
    ensures Below(rs, Counter(s))
  {
    forall i | 0 <= i < |rs| ensures rs[i].id < Counter(s) {
      assert rs[i].id in Ids(rs);
      assert Mapped(s, rs[i].id);
      KnownIs(s, rs[i].id);
    }
  }

  /** With inverse maps the selection is the ids of the matching pairs, read either way. */
  lemma SelectedExactly(s: Store, user: Option<string>, app: Option<string>)
    requires Inverse(s)
    ensures forall id | id in s.toApp :: id in SelectedIds(s, user, app) <==> Matches(user, app, s.toApp[id])
    ensures forall p | p in s.byPair :: s.byPair[p] in SelectedIds(s, user, app) <==> Matches(user, app, p)
  {
    hide Matches;
    var ids := SelectedIds(s, user, app);
    forall id | id in s.toApp ensures id in ids <==> Matches(user, app, s.toApp[id]) {
      assert s.byPair[s.toApp[id]] == id;
      if p :| p in s.byPair && Matches(user, app, p) && s.byPair[p] == id {
        assert s.toApp[id] == p;
      }
    }
    forall p | p in s.byPair ensures s.byPair[p] in ids <==> Matches(user, app, p) {
      assert s.toApp[s.byPair[p]] == p;
    }
  }

  // ---- any operation ----

  /** An operation that names ids names only ids below the counter. */
  ghost predicate Within(s: Store, op: Op) {
    match op
    case Retire(id) => id < Counter(s)
    case RetireFor(rs) => Below(rs, Counter(s))
    case _ => true
  }

  /** Every complete operation keeps storage in order, and a sound counter sound unless it names an id beyond it. */
  lemma OpOrderly(s: Store, op: Op)
    requires Orderly(s) && (op.RetireFor? ==> Thorough(s, op.rs))
    ensures var r := Run(s, PlanOf(s, op));
            Orderly(r) && (Tidy(s) && Within(s, op) ==> Tidy(r))
  {
    hide Run, Orderly, Counted, Inverse, KnownIds, AllocateTail, Initialized, AllocatePlan, ReleasePlan, RetirePlan, RetireForPlan, MaintainPlan,
      Thorough;
    match op {
      case Allocate(pair, token) => { AllocateOrderly(s, pair, token); }
      case Release(pair, id) => { ReleaseOrderly(s, pair, id); }
      case Retire(id) => { RetireOrderly(s, id); }
      case RetireFor(rs) => { OrderlyInverse(s); RetireForRemoves(s, rs); }
      case Maintain => { MaintainKeeps(s); }
    }
  }

  lemma OrderlyInverse(s: Store)
    requires Orderly(s)
    ensures Inverse(s)
  {
  }

  lemma MaintainKeeps(s: Store)
    requires Orderly(s)
    ensures Orderly(Run(s, MaintainPlan(s))) && (Tidy(s) ==> Tidy(Run(s, MaintainPlan(s))))
  {
    MaintainRestores(s);
    if Tidy(s) {
      MaintainTidy(s);
      RunNothing(s);
    }
  }
}
