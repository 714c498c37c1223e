/** No origin is lost: what a crash between two storage writes leaves, and what one maintenance pass makes of it. */
module SubdomainRecovery {
  import opened Basics
  import opened Subdomains
  import opened SubdomainLaws
  import opened SubdomainTidy

  /** The id is mapped, quarantined or free, or holds a token by which maintenance finds it again. */
  ghost predicate Tracked(s: Store, id: nat) {
    Accounted(s, id) || id in LifecycleOf(s).assignments
  }

  // ---- maintenance ----

  /** One maintenance pass, on any storage whatever, accounts for exactly the tracked ids. */
  lemma MaintainAccounts(s: Store, id: nat)
    ensures Accounted(Run(s, MaintainPlan(s)), id) <==> Tracked(s, id)
    ensures LifecycleOf(Run(s, MaintainPlan(s))).assignments == LifecycleOf(s).assignments
  {
    MaintainResult(s);
    InitCareful(s);
    InitOrderly(s);
    var (t, r) := (Initialized(s), Run(s, MaintainPlan(s)));
    MapsSame(s, t, id);
    MapsSame(t, r, id);
    hide Run, MaintainPlan, InitPlan, Initialized, Mapped, Above, KnownIds, NextAfter, Orderly, Counted;
  }

  // ---- one write ----

  ghost predicate Keeps(s: Store, w: Write, id: nat) {
    Tracked(s, id) ==> Tracked(Exec(s, w), id)
  }

  ghost predicate KeepsPlan(s: Store, ws: seq<Write>, id: nat)
    decreases |ws|
  {
    ws == [] || (Keeps(s, ws[0], id) && KeepsPlan(Exec(s, ws[0]), ws[1..], id))
  }

  lemma {:induction false} KeepsConcat(s: Store, a: seq<Write>, b: seq<Write>, id: nat)
    requires KeepsPlan(s, a, id) && KeepsPlan(Run(s, a), b, id)
    ensures KeepsPlan(s, a + b, id)
    decreases |a|
  {
    hide Keeps, Exec;
    if a == [] {
      assert a + b == b;
    } else {
      assert (a + b)[1..] == a[1..] + b;
      KeepsConcat(Exec(s, a[0]), a[1..], b, id);
    }
  }

  lemma KeepsOne(s: Store, w: Write, id: nat)
    ensures Keeps(s, w, id) ==> KeepsPlan(s, [w], id)
  {
    assert [w][1..] == [];
  }

  lemma KeepsTwo(s: Store, v: Write, w: Write, id: nat)
    ensures Keeps(s, v, id) && Keeps(Exec(s, v), w, id) ==> KeepsPlan(s, [v, w], id)
  {
    assert [v, w][1..] == [w];
    KeepsOne(Exec(s, v), w, id);
    hide Keeps, Exec;
  }

  /** After any prefix of a keeping plan the id is still tracked. */
  lemma {:induction false} PrefixTracked(s: Store, ws: seq<Write>, k: nat, id: nat)
    requires KeepsPlan(s, ws, id) && k <= |ws| && Tracked(s, id)
    ensures Tracked(Run(s, ws[..k]), id)
    decreases k
  {
    hide Tracked, Exec;
    if k > 0 {
      assert Tracked(Exec(s, ws[0]), id) by { assert Keeps(s, ws[0], id); }
      assert ws[..k][1..] == ws[1..][..k - 1];
      PrefixTracked(Exec(s, ws[0]), ws[1..], k - 1, id);
    }
  }

  /** Writes that cannot lose an id: the quarantine and the tokens only grow, and mappings of other ids go. */
  lemma KeepsWrite(s: Store, w: Write, id: nat)
    ensures w.PutNext? ==> Keeps(s, w, id)
    ensures w.PutLifecycle? && Pending(s) <= w.state.pending && LifecycleOf(s).assignments.Keys <= w.state.assignments.Keys ==> Keeps(s, w, id)
    ensures w.PutFree? && (id in s.freeIds ==> id in w.ids || id in Pending(s) || id in LifecycleOf(s).assignments) ==> Keeps(s, w, id)
    ensures w.PutToApp? ==> Keeps(s, w, id)
    ensures w.PutByPair? && w.pair !in s.byPair ==> Keeps(s, w, id)
    ensures w.DropToApp? && (w.id != id || id in Pending(s)) ==> Keeps(s, w, id)
    ensures w.DropByPair? && (id in Pending(s) || w.pair !in s.byPair || s.byPair[w.pair] != id) ==> Keeps(s, w, id)
  {
    var r := Exec(s, w);
    if Mapped(s, id) && id !in s.toApp {
      var p :| p in s.byPair && s.byPair[p] == id;
      if p in r.byPair && r.byPair[p] == id { assert Mapped(r, id); }
    }
  }

  // ---- every operation ----

  lemma InitKeeps(s: Store, id: nat)
    ensures KeepsPlan(s, InitPlan(s), id)
  {
    if !LifecycleOf(s).current {
      var first := PutLifecycle(Lifecycle(true, Pending(s) + s.freeIds, LifecycleOf(s).assignments));
      KeepsWrite(s, first, id);
      KeepsWrite(Exec(s, first), PutFree({}), id);
      KeepsTwo(s, first, PutFree({}), id);
      hide Keeps;
    }
  }

  lemma RetireKeeps(s: Store, retired: nat, id: nat)
    ensures KeepsPlan(s, RetirePlan(s, retired), id)
  {
    InitKeeps(s, id);
    RetireTailKeeps(Initialized(s), retired, id);
    hide RetireTail, KeepsPlan, InitPlan;
    KeepsConcat(s, InitPlan(s), RetireTail(Initialized(s), retired), id);
  }

  lemma RetireTailKeeps(s: Store, retired: nat, id: nat)
    ensures KeepsPlan(s, RetireTail(s, retired), id)
  {
    hide Keeps, KeepsPlan;
    var state := LifecycleOf(s).(pending := Pending(s) + {retired});
    var first := [PutLifecycle(state), PutFree(s.freeIds - {retired})];
    var mid := Exec(s, first[0]);
    var t := Exec(mid, first[1]);
    KeepsWrite(s, first[0], id);
    KeepsWrite(mid, first[1], id);
    KeepsTwo(s, first[0], first[1], id);
    RunTwo(s, first[0], first[1]);
    RetireTailShape(s, retired);
    if retired in s.toApp && s.toApp[retired] in s.byPair && s.byPair[s.toApp[retired]] == retired {
      KeepsWrite(t, DropByPair(s.toApp[retired]), id);
      KeepsWrite(Exec(t, DropByPair(s.toApp[retired])), DropToApp(retired), id);
      KeepsTwo(t, DropByPair(s.toApp[retired]), DropToApp(retired), id);
      KeepsConcat(s, first, [DropByPair(s.toApp[retired]), DropToApp(retired)], id);
    } else {
      KeepsWrite(t, DropToApp(retired), id);
      KeepsOne(t, DropToApp(retired), id);
      KeepsConcat(s, first, [DropToApp(retired)], id);
    }
  }

  lemma {:induction false} DropPairsKeeps(s: Store, pairs: seq<Pair>, retired: nat, id: nat)
    requires retired in Pending(s) && forall i | 0 <= i < |pairs| :: pairs[i] in s.byPair ==> s.byPair[pairs[i]] == retired
    ensures KeepsPlan(s, DropPairs(pairs), id)
    decreases |pairs|
  {
    hide Keeps;
    if pairs != [] {
      assert DropPairs(pairs)[1..] == DropPairs(pairs[1..]);
      KeepsWrite(s, DropByPair(pairs[0]), id);
      DropPairsKeeps(Exec(s, DropByPair(pairs[0])), pairs[1..], retired, id);
    }
  }

  lemma RetireOneKeeps(s: Store, r: Retirement, id: nat)
    requires AllStrays(s, r)
    ensures KeepsPlan(s, RetireOne(s, r), id)
  {
    RetireResult(s, r.id);
    hide Keeps, KeepsPlan, Run, RetirePlan, InitPlan, Initialized;
    var t := Run(s, RetirePlan(s, r.id));
    assert r.id in Pending(t);
    forall i | 0 <= i < |r.stray| ensures r.stray[i] in t.byPair ==> t.byPair[r.stray[i]] == r.id { assert r.stray[i] in r.stray; }
    RetireKeeps(s, r.id, id);
    DropPairsKeeps(t, r.stray, r.id, id);
    KeepsConcat(s, RetirePlan(s, r.id), DropPairs(r.stray), id);
  }

  lemma {:induction false} RetireForKeeps(s: Store, rs: seq<Retirement>, id: nat)
    requires Thorough(s, rs)
    ensures KeepsPlan(s, RetireForPlan(s, rs), id)
    decreases |rs|
  {
    hide Keeps, Run, RetireOne, AllStrays;
    if rs != [] {
      var n := |rs| - 1;
      var before := RetireForPlan(s, rs[..n]);
      RetireForKeeps(s, rs[..n], id);
      RetireOneKeeps(Run(s, before), rs[n], id);
      KeepsConcat(s, before, RetireOne(Run(s, before), rs[n]), id);
    }
  }

  lemma MaintainKeepsTracked(s: Store, id: nat)
    ensures KeepsPlan(s, MaintainPlan(s), id)
  {
    hide Keeps, KeepsPlan, Run, LostIds, KnownIds, Above;
    InitKeeps(s, id);
    var t := Initialized(s);
    var next := LifecycleOf(t).(pending := Pending(t) + LostIds(t));
    var minimum := Above(KnownIds(t, next));
    KeepsWrite(t, PutLifecycle(next), id);
    KeepsWrite(t, PutNext(minimum), id);
    KeepsWrite(Exec(t, PutLifecycle(next)), PutNext(minimum), id);
    KeepsOne(t, PutLifecycle(next), id);
    KeepsOne(t, PutNext(minimum), id);
    KeepsTwo(t, PutLifecycle(next), PutNext(minimum), id);
    assert [PutLifecycle(next)] + [PutNext(minimum)] == [PutLifecycle(next), PutNext(minimum)];
    assert [] + [PutNext(minimum)] == [PutNext(minimum)] && [PutLifecycle(next)] + [] == [PutLifecycle(next)];
    var ws := MaintainTail(t);
    assert ws == [] || ws == [PutLifecycle(next)] || ws == [PutNext(minimum)] || ws == [PutLifecycle(next), PutNext(minimum)];
    NothingKeeps(t, id);
    hide MaintainTail;
    KeepsConcat(s, InitPlan(s), ws, id);
  }

  lemma NothingKeeps(s: Store, id: nat)
    ensures KeepsPlan(s, [], id)
  {
  }

  /** The allocation takes the id from the free list although no token names it: an id of an earlier version. */
  ghost predicate RecyclesUntraced(s: Store, op: Op, id: nat) {
    && op.Allocate? && LifecycleOf(s).current && op.pair !in s.byPair && ReverseOf(s, op.pair) == {}
    && Reusable(s) != {} && id == Least(Reusable(s)) && id !in LifecycleOf(s).assignments
  }

  lemma AllocateKeeps(s: Store, pair: Pair, token: nat, id: nat)
    ensures RecyclesUntraced(s, Op.Allocate(pair, token), id) || KeepsPlan(s, AllocatePlan(s, pair, token), id)
  {
    InitCareful(s);
    InitKeeps(s, id);
    var t := Initialized(s);
    AllocateTailKeeps(t, pair, token, id);
    hide Run, KeepsPlan, AllocateTail, InitPlan, Initialized, Least, Mapped, LifecycleOf;
    if !RecyclesUntraced(t, Op.Allocate(pair, token), id) {
      KeepsConcat(s, InitPlan(s), AllocateTail(t, pair, token).0, id);
    } else {
      RecycledIsVersioned(s, pair, token, id);
    }
  }

  /** An unversioned free list is quarantined first, so nothing is recycled from it. */
  lemma RecycledIsVersioned(s: Store, pair: Pair, token: nat, id: nat)
    requires RecyclesUntraced(Initialized(s), Op.Allocate(pair, token), id)
    ensures RecyclesUntraced(s, Op.Allocate(pair, token), id)
  {
    InitCareful(s);
    assert id in Initialized(s).freeIds;
    hide Run, InitPlan, Least, Mapped;
  }

  lemma AllocateTailKeeps(s: Store, pair: Pair, token: nat, id: nat)
    requires LifecycleOf(s).current
    ensures RecyclesUntraced(s, Op.Allocate(pair, token), id) || KeepsPlan(s, AllocateTail(s, pair, token).0, id)
  {
    hide Keeps, KeepsPlan, Assign, Run, Above, Least, FreshId, KnownIds, Mapped;
    NothingKeeps(s, id);
    if pair in s.byPair {
      KeepsWrite(s, PutToApp(s.byPair[pair], pair), id);
      KeepsOne(s, PutToApp(s.byPair[pair], pair), id);
    } else if ReverseOf(s, pair) != {} {
      KeepsWrite(s, PutByPair(pair, Least(ReverseOf(s, pair))), id);
      KeepsOne(s, PutByPair(pair, Least(ReverseOf(s, pair))), id);
    } else if Reusable(s) != {} {
      var new_ := Least(Reusable(s));
      if new_ != id || id in LifecycleOf(s).assignments {
        FirstThenAssign(s, PutFree(s.freeIds - {new_}), new_, pair, token, id);
      }
    } else {
      FirstThenAssign(s, PutNext(FreshId(s) + 1), FreshId(s), pair, token, id);
    }
  }

  lemma FirstThenAssign(s: Store, first: Write, new_: nat, pair: Pair, token: nat, id: nat)
    requires pair !in s.byPair
    requires first.PutNext? || (first == PutFree(s.freeIds - {new_}) && (new_ != id || id in LifecycleOf(s).assignments))
    ensures KeepsPlan(s, [first] + Assign(s, new_, pair, token), id)
  {
    hide Keeps, KeepsPlan, Assign;
    KeepsWrite(s, first, id);
    KeepsOne(s, first, id);
    RunTwo(s, first, first);
    AssignKeeps(Exec(s, first), new_, pair, token, id);
    AssignSame(s, Exec(s, first), new_, pair, token);
    KeepsConcat(s, [first], Assign(s, new_, pair, token), id);
  }

  lemma AssignKeeps(s: Store, new_: nat, pair: Pair, token: nat, id: nat)
    requires pair !in s.byPair
    ensures KeepsPlan(s, Assign(s, new_, pair, token), id)
  {
    hide Keeps;
    var ws := Assign(s, new_, pair, token);
    var t := Exec(s, ws[0]);
    KeepsWrite(s, ws[0], id);
    KeepsWrite(t, ws[1], id);
    KeepsWrite(Exec(t, ws[1]), ws[2], id);
    KeepsTwo(t, ws[1], ws[2], id);
    assert ws[1..] == [ws[1], ws[2]];
  }

  lemma OpKeeps(s: Store, op: Op, id: nat)
    requires op.RetireFor? ==> Thorough(s, op.rs)
    ensures RecyclesUntraced(s, op, id) || KeepsPlan(s, PlanOf(s, op), id)
  {
    hide KeepsPlan, RecyclesUntraced, AllocatePlan, RetirePlan, RetireForPlan, MaintainPlan, Thorough;
    NothingKeeps(s, id);
    match op {
      case Allocate(pair, token) => { AllocateKeeps(s, pair, token, id); }
      case Release(pair, released) => { RetireKeeps(s, released, id); }
      case Retire(retired) => { RetireKeeps(s, retired, id); }
      case RetireFor(rs) => { RetireForKeeps(s, rs, id); }
      case Maintain => { MaintainKeepsTracked(s, id); }
    }
  }

  lemma FreeKeeps(s: Store, freed: nat, id: nat)
    ensures KeepsPlan(s, FreePlan(s, freed), id)
  {
    var ws := FreePlan(s, freed);
    var t := Exec(s, ws[0]);
    KeepsWrite(s, ws[0], id);
    assert Keeps(t, ws[1], id) by { if Mapped(t, id) { MapsSame(t, Exec(t, ws[1]), id); } }
    KeepsTwo(s, ws[0], ws[1], id);
  }

  // ---- crashes ----

  /** The plan of an allocation that recycles: the free list first, then the token and the two mappings. */
  lemma RecyclePlan(s: Store, op: Op, id: nat)
    requires RecyclesUntraced(s, op, id)
    ensures PlanOf(s, op) == [PutFree(s.freeIds - {id})] + Assign(s, id, op.pair, op.token)
    ensures id in s.freeIds && id !in Pending(s) && !Mapped(s, id)
  {
    RunNothing(s);
    hide Run, Assign, Least, Above;
    assert InitPlan(s) == [] && Initialized(s) == s;
    assert [] + AllocateTail(s, op.pair, op.token).0 == AllocateTail(s, op.pair, op.token).0;
  }

  /** Between dropping the id from the free list and writing its token, nothing tracks it. */
  lemma RecycleGap(s: Store, op: Op, id: nat, k: nat)
    requires RecyclesUntraced(s, op, id) && k <= |PlanOf(s, op)|
    ensures Tracked(Run(s, PlanOf(s, op)[..k]), id) <==> k != 1
  {
    RecyclePlan(s, op, id);
    hide RecyclesUntraced, PlanOf;
    var first := PutFree(s.freeIds - {id});
    var ws := [first] + Assign(s, id, op.pair, op.token);
    RunTwo(s, first, first);
    RunNothing(s);
    if k == 1 {
      assert ws[..1] == [first];
      MapsSame(s, Exec(s, first), id);
    } else if k == 0 {
      assert ws[..0] == [];
    } else {
      var t := Exec(Exec(s, first), ws[1]);
      RunTwo(s, first, ws[1]);
      assert ws[..k] == [first, ws[1]] + ws[2..k];
      RunConcat(s, [first, ws[1]], ws[2..k]);
      TokenStays(t, ws[2..k], id);
    }
  }

  lemma TokenStays(s: Store, ws: seq<Write>, id: nat)
    requires id in LifecycleOf(s).assignments && |ws| <= 2 && forall i | 0 <= i < |ws| :: ws[i].PutToApp? || ws[i].PutByPair?
    ensures id in LifecycleOf(Run(s, ws)).assignments
  {
    RunNothing(s);
    if |ws| == 1 {
      RunTwo(s, ws[0], ws[0]);
      assert ws == [ws[0]];
    } else if |ws| == 2 {
      RunTwo(s, ws[0], ws[1]);
      assert ws == [ws[0], ws[1]];
    }
  }

  /**
   * A tab dies after any number of the writes of any operation, on any storage: one maintenance pass accounts for
   * every id that was mapped, quarantined, free or assigned before, or is after the crash. The one exception is exact:
   * an id of an earlier version, recycled while no token names it, is lost by a crash before its token is written.
   */
  lemma CrashLosesNothing(s: Store, op: Op, k: nat, id: nat)
    requires (op.RetireFor? ==> Thorough(s, op.rs)) && k <= |PlanOf(s, op)|
    requires Tracked(s, id) || Tracked(Run(s, PlanOf(s, op)[..k]), id)
    ensures var crashed := Run(s, PlanOf(s, op)[..k]);
            Accounted(Run(crashed, MaintainPlan(crashed)), id) <==> !(RecyclesUntraced(s, op, id) && k == 1)
  {
    hide Run, PlanOf, MaintainPlan, RecyclesUntraced, Tracked, Thorough;
    var crashed := Run(s, PlanOf(s, op)[..k]);
    MaintainAccounts(crashed, id);
    if RecyclesUntraced(s, op, id) {
      RecycleGap(s, op, id, k);
    } else if Tracked(s, id) {
      OpKeeps(s, op, id);
      PrefixTracked(s, PlanOf(s, op), k, id);
    }
  }

  /** In particular an id that holds a token is never lost. */
  lemma TokenNeverLost(s: Store, op: Op, k: nat, id: nat)
    requires (op.RetireFor? ==> Thorough(s, op.rs)) && k <= |PlanOf(s, op)| && id in LifecycleOf(s).assignments
    ensures var crashed := Run(s, PlanOf(s, op)[..k]); Accounted(Run(crashed, MaintainPlan(crashed)), id)
  {
    CrashLosesNothing(s, op, k, id);
    hide Run, PlanOf, MaintainPlan;
  }

  /** The commit of a cleanup loses nothing, wherever it stops. */
  lemma FreeingLosesNothing(s: Store, freed: nat, k: nat, id: nat)
    requires k <= 2 && Tracked(s, id)
    ensures var crashed := Run(s, FreePlan(s, freed)[..k]); Accounted(Run(crashed, MaintainPlan(crashed)), id)
  {
    FreeKeeps(s, freed, id);
    PrefixTracked(s, FreePlan(s, freed), k, id);
    MaintainAccounts(Run(s, FreePlan(s, freed)[..k]), id);
    hide Run, FreePlan, MaintainPlan;
  }

  /** The exception happens: an id of an earlier version, cleaned and free, and a crash after the first write. */
  lemma UntracedIdLost(pair: Pair, token: nat)
    ensures var s := Store(map[], map[], {3}, Some(4), Some(Lifecycle(true, {}, map[])));
            var op := Op.Allocate(pair, token);
            && Tidy(s) && Accounted(s, 3) && |PlanOf(s, op)| == 4
            && var crashed := Run(s, PlanOf(s, op)[..1]); !Accounted(Run(crashed, MaintainPlan(crashed)), 3)
  {
    var s := Store(map[], map[], {3}, Some(4), Some(Lifecycle(true, {}, map[])));
    var op := Op.Allocate(pair, token);
    InitCareful(s);
    assert 3 in Reusable(s);
    assert Least(Reusable(s)) in Reusable(s);
    assert RecyclesUntraced(s, op, 3);
    RecyclePlan(s, op, 3);
    CrashLosesNothing(s, op, 1, 3);
    hide Run, PlanOf, MaintainPlan;
  }
}
