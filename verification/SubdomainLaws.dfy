/** What every single write of every operation keeps, and what whole operations achieve. */
module SubdomainLaws {
  import opened Basics
  import opened Subdomains

  /** No id serves two pairs, and the two maps never contradict each other. */
  ghost predicate Consistent(s: Store) {
    && (forall p, q | p in s.byPair && q in s.byPair && s.byPair[p] == s.byPair[q] :: p == q)
    && (forall p | p in s.byPair && s.byPair[p] in s.toApp :: s.toApp[s.byPair[p]] == p)
  }

  /** Only `p` is mapped to the id, if anyone is. */
  ghost predicate OnlyFor(s: Store, id: nat, p: Pair) {
    && (forall q | q in s.byPair && s.byPair[q] == id :: q == p)
    && (id in s.toApp ==> s.toApp[id] == p)
  }

  /** The id cannot be given to anyone but `p`: it is quarantined or mapped, and to nobody else. */
  ghost predicate Held(s: Store, id: nat, p: Pair) {
    OnlyFor(s, id, p) && (id in Pending(s) || Mapped(s, id))
  }

  ghost predicate Protects(s: Store, s': Store) {
    && (forall id, p | Held(s, id, p) :: Held(s', id, p))
    && (forall id | Eligible(s, id) :: Eligible(s', id))
  }

  /** When a single write is safe, whatever happens after it. */
  ghost predicate Careful(s: Store, w: Write) {
    match w
    case PutLifecycle(state) => Pending(s) <= state.pending
    case PutFree(_) => true
    case PutNext(_) => true
    case PutToApp(id, p) => (p in s.byPair && s.byPair[p] == id) || (id !in Pending(s) && !Mapped(s, id))
    case DropToApp(id) => id in Pending(s)
    case PutByPair(p, id) => p !in s.byPair && id in s.toApp && s.toApp[id] == p
    case DropByPair(p) => p in s.byPair ==> s.byPair[p] in Pending(s)
  }

  ghost predicate CarefulPlan(s: Store, ws: seq<Write>)
    decreases |ws|
  {
    ws == [] || (Careful(s, ws[0]) && CarefulPlan(Exec(s, ws[0]), ws[1..]))
  }

  /** An id loses its last mapping only while it is quarantined. */
  lemma StaysMapped(s: Store, w: Write, id: nat)
    requires Careful(s, w) && Mapped(s, id)
    ensures Mapped(Exec(s, w), id) || id in Pending(s)
  {
    if id !in s.toApp {
      var p :| p in s.byPair && s.byPair[p] == id;
      if w != DropByPair(p) {
        assert p in Exec(s, w).byPair && Exec(s, w).byPair[p] == id;
      }
    }
  }

  lemma CarefulProtects(s: Store, w: Write)
    requires Consistent(s) && Careful(s, w)
    ensures Consistent(Exec(s, w)) && Protects(s, Exec(s, w))
  {
    var s' := Exec(s, w);
    forall id, p | Held(s, id, p) ensures Held(s', id, p) {
      if Mapped(s, id) { StaysMapped(s, w, id); }
    }
  }

  lemma {:induction false} CarefulConcat(s: Store, a: seq<Write>, b: seq<Write>)
    requires CarefulPlan(s, a) && CarefulPlan(Run(s, a), b)
    ensures CarefulPlan(s, a + b)
    decreases |a|
  {
    if a == [] {
      assert a + b == b;
    } else {
      assert (a + b)[1..] == a[1..] + b;
      CarefulConcat(Exec(s, a[0]), a[1..], b);
    }
  }

  lemma {:induction false} CarefulPlanConsistent(s: Store, ws: seq<Write>)
    requires Consistent(s) && CarefulPlan(s, ws)
    ensures Consistent(Run(s, ws)) && Protects(s, Run(s, ws))
    decreases |ws|
  {
    if ws != [] {
      CarefulProtects(s, ws[0]);
      CarefulPlanConsistent(Exec(s, ws[0]), ws[1..]);
    }
  }

  lemma CarefulOne(s: Store, w: Write)
    requires Careful(s, w)
    ensures CarefulPlan(s, [w])
  {
    assert [w][1..] == [];
  }

  lemma CarefulTwo(s: Store, v: Write, w: Write)
    requires Careful(s, v) && Careful(Exec(s, v), w)
    ensures CarefulPlan(s, [v, w])
  {
    assert [v, w][1..] == [w];
    CarefulOne(Exec(s, v), w);
  }

  lemma InitCareful(s: Store)
    ensures CarefulPlan(s, InitPlan(s)) && LifecycleOf(Initialized(s)).current
    ensures Initialized(s) == if LifecycleOf(s).current then s
                              else s.(lifecycle := Some(Lifecycle(true, Pending(s) + s.freeIds, LifecycleOf(s).assignments)), freeIds := {})
  {
    if !LifecycleOf(s).current {
      var first := PutLifecycle(Lifecycle(true, Pending(s) + s.freeIds, LifecycleOf(s).assignments));
      CarefulTwo(s, first, PutFree({}));
      RunTwo(s, first, PutFree({}));
    }
  }

  lemma AssignCareful(s: Store, id: nat, pair: Pair, token: nat)
    requires pair !in s.byPair && id !in Pending(s) && !Mapped(s, id)
    ensures CarefulPlan(s, Assign(s, id, pair, token))
  {
    var ws := Assign(s, id, pair, token);
    var s1 := Exec(s, ws[0]);
    assert !Mapped(s1, id);
    assert ws[1..] == [PutToApp(id, pair), PutByPair(pair, id)];
    CarefulTwo(s1, PutToApp(id, pair), PutByPair(pair, id));
  }

  lemma AllocateCareful(s: Store, pair: Pair, token: nat)
    requires Consistent(s)
    ensures CarefulPlan(s, AllocatePlan(s, pair, token))
  {
    InitCareful(s);
    CarefulPlanConsistent(s, InitPlan(s));
    var t := Initialized(s);
    AllocateTailCareful(t, pair, token);
    CarefulConcat(s, InitPlan(s), AllocateTail(t, pair, token).0);
  }

  lemma AllocateTailCareful(s: Store, pair: Pair, token: nat)
    requires Consistent(s)
    ensures CarefulPlan(s, AllocateTail(s, pair, token).0)
  {
    if pair in s.byPair {
      CarefulOne'(s, PutToApp(s.byPair[pair], pair));
    } else if ReverseOf(s, pair) != {} {
      CarefulOne'(s, PutByPair(pair, Least(ReverseOf(s, pair))));
    } else if Reusable(s) != {} {
      var id := Least(Reusable(s));
      var s1 := Exec(s, PutFree(s.freeIds - {id}));
      assert !Mapped(s1, id);
      CarefulOne'(s, PutFree(s.freeIds - {id}));
      AssignCareful(s1, id, pair, token);
      RunTwo(s, PutFree(s.freeIds - {id}), PutFree({}));
      CarefulConcat(s, [PutFree(s.freeIds - {id})], Assign(s, id, pair, token));
    } else {
      var id := FreshId(s);
      FreshUnmapped(s);
      var s1 := Exec(s, PutNext(id + 1));
      assert !Mapped(s1, id);
      CarefulOne'(s, PutNext(id + 1));
      AssignCareful(s1, id, pair, token);
      RunTwo(s, PutNext(id + 1), PutFree({}));
      CarefulConcat(s, [PutNext(id + 1)], Assign(s, id, pair, token));
    }
  }

  lemma CarefulOne'(s: Store, w: Write)
    ensures Careful(s, w) ==> CarefulPlan(s, [w])
  {
    assert [w][1..] == [];
  }

  lemma MaintainCareful(s: Store)
    ensures CarefulPlan(s, MaintainPlan(s))
  {
    InitCareful(s);
    var t := Initialized(s);
    var next := LifecycleOf(t).(pending := Pending(t) + LostIds(t));
    var minimum := Above(KnownIds(t, next));
    CarefulOne'(t, PutLifecycle(next));
    CarefulOne'(t, PutNext(minimum));
    CarefulTwo(t, PutLifecycle(next), PutNext(minimum));
    assert [PutLifecycle(next)] + [PutNext(minimum)] == [PutLifecycle(next), PutNext(minimum)];
    var ws := MaintainTail(t);
    assert ws == [] || ws == [PutLifecycle(next)] || ws == [PutNext(minimum)] || ws == [PutLifecycle(next), PutNext(minimum)];
    CarefulConcat(s, InitPlan(s), ws);
  }

  lemma RetireTailCareful(s: Store, id: nat)
    requires Consistent(s)
    ensures CarefulPlan(s, RetireTail(s, id))
  {
    var state := LifecycleOf(s).(pending := Pending(s) + {id});
    var first := [PutLifecycle(state), PutFree(s.freeIds - {id})];
    CarefulTwo(s, PutLifecycle(state), PutFree(s.freeIds - {id}));
    RunTwo(s, PutLifecycle(state), PutFree(s.freeIds - {id}));
    var t := Run(s, first);
    RetireTailShape(s, id);
    if id in s.toApp && s.toApp[id] in s.byPair && s.byPair[s.toApp[id]] == id {
      CarefulTwo(t, DropByPair(s.toApp[id]), DropToApp(id));
      CarefulConcat(s, first, [DropByPair(s.toApp[id]), DropToApp(id)]);
    } else {
      CarefulOne(t, DropToApp(id));
      CarefulConcat(s, first, [DropToApp(id)]);
    }
  }

  lemma RetireCareful(s: Store, id: nat)
    requires Consistent(s)
    ensures CarefulPlan(s, RetirePlan(s, id))
    ensures id in Pending(Run(s, RetirePlan(s, id)))
  {
    InitCareful(s);
    CarefulPlanConsistent(s, InitPlan(s));
    RetireTailCareful(Initialized(s), id);
    CarefulConcat(s, InitPlan(s), RetireTail(Initialized(s), id));
    RunConcat(s, InitPlan(s), RetireTail(Initialized(s), id));
    RetireTailResult(Initialized(s), id);
  }

  /** The store that retiring leaves, field by field. */
  lemma RetireTailResult(s: Store, id: nat)
    ensures var r := Run(s, RetireTail(s, id));
            && r.toApp == s.toApp - {id} && r.freeIds == s.freeIds - {id} && r.nextId == s.nextId
            && r.lifecycle == Some(LifecycleOf(s).(pending := Pending(s) + {id}))
            && r.byPair == if id in s.toApp && s.toApp[id] in s.byPair && s.byPair[s.toApp[id]] == id
                           then s.byPair - {s.toApp[id]} else s.byPair
  {
    var state := LifecycleOf(s).(pending := Pending(s) + {id});
    RunTwo(s, PutLifecycle(state), PutFree(s.freeIds - {id}));
    var first := [PutLifecycle(state), PutFree(s.freeIds - {id})];
    var t := Run(s, first);
    RetireTailShape(s, id);
    if id in s.toApp && s.toApp[id] in s.byPair && s.byPair[s.toApp[id]] == id {
      RunTwo(t, DropByPair(s.toApp[id]), DropToApp(id));
      RunConcat(s, first, [DropByPair(s.toApp[id]), DropToApp(id)]);
    } else {
      RunTwo(t, DropToApp(id), DropToApp(id));
      RunConcat(s, first, [DropToApp(id)]);
    }
  }

  lemma {:induction false} DropPairsCareful(s: Store, pairs: seq<Pair>, id: nat)
    requires id in Pending(s) && forall i | 0 <= i < |pairs| :: pairs[i] in s.byPair ==> s.byPair[pairs[i]] == id
    ensures CarefulPlan(s, DropPairs(pairs))
    decreases |pairs|
  {
    if pairs != [] {
      assert DropPairs(pairs)[1..] == DropPairs(pairs[1..]);
      DropPairsCareful(Exec(s, DropByPair(pairs[0])), pairs[1..], id);
    }
  }

  lemma {:induction false} RetireForCareful(s: Store, rs: seq<Retirement>)
    requires Consistent(s) && Thorough(s, rs)
    ensures CarefulPlan(s, RetireForPlan(s, rs))
    decreases |rs|
  {
    if rs != [] {
      var n := |rs| - 1;
      var before := RetireForPlan(s, rs[..n]);
      var t := Run(s, before);
      RetireForCareful(s, rs[..n]);
      CarefulPlanConsistent(s, before);
      RetireOneCareful(t, rs[n]);
      CarefulConcat(s, before, RetireOne(t, rs[n]));
    }
  }

  lemma RetireOneCareful(s: Store, r: Retirement)
    requires Consistent(s) && AllStrays(s, r)
    ensures CarefulPlan(s, RetireOne(s, r))
  {
    RetireCareful(s, r.id);
    forall i | 0 <= i < |r.stray| ensures r.stray[i] in Run(s, RetirePlan(s, r.id)).byPair ==> Run(s, RetirePlan(s, r.id)).byPair[r.stray[i]] == r.id {
      assert r.stray[i] in r.stray;
    }
    DropPairsCareful(Run(s, RetirePlan(s, r.id)), r.stray, r.id);
    CarefulConcat(s, RetirePlan(s, r.id), DropPairs(r.stray));
  }

  lemma ReleaseCareful(s: Store, pair: Pair, id: nat)
    requires Consistent(s)
    ensures CarefulPlan(s, ReleasePlan(s, pair, id))
  {
    RetireCareful(s, id);
  }
}
