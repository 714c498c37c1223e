/**
 * The app-origin allocator: which storage keys each operation writes, in which order.
 * Every operation is a plan, the list of its writes, because each write is a point where the tab can die.
 */
module Subdomains {
  import opened Basics

  /** A user key and an app id, both non-empty. */
  datatype Pair = Pair(user: string, app: string)

  /**
   * `pending`: quarantined ids. `assignments`: the token of each id's latest assignment.
   * `current` is the format version test; an id list is a set, since every read normalizes it.
   */
  datatype Lifecycle = Lifecycle(current: bool, pending: set<nat>, assignments: map<nat, nat>)

  datatype Store = Store(
    byPair: map<Pair, nat>,        // session_subdomainByUserAndApp_*
    toApp: map<nat, Pair>,         // session_subdomainToApp_*
    freeIds: set<nat>,             // session_subdomainFreeIds
    nextId: Option<int>,           // session_subdomainNextId
    lifecycle: Option<Lifecycle>)  // local_subdomainLifecycle

  datatype Write =
    | PutLifecycle(state: Lifecycle)
    | PutFree(ids: set<nat>)
    | PutNext(next: int)
    | PutToApp(id: nat, pair: Pair)
    | DropToApp(id: nat)
    | PutByPair(pair: Pair, id: nat)
    | DropByPair(pair: Pair)

  function Exec(s: Store, w: Write): Store {
    match w
    case PutLifecycle(state) => s.(lifecycle := Some(state))
    case PutFree(ids) => s.(freeIds := ids)
    case PutNext(next) => s.(nextId := Some(next))
    case PutToApp(id, pair) => s.(toApp := s.toApp[id := pair])
    case DropToApp(id) => s.(toApp := s.toApp - {id})
    case PutByPair(pair, id) => s.(byPair := s.byPair[pair := id])
    case DropByPair(pair) => s.(byPair := s.byPair - {pair})
  }

  function Run(s: Store, ws: seq<Write>): Store
    decreases |ws|
  {
    if ws == [] then s else Run(Exec(s, ws[0]), ws[1..])
  }

  lemma {:induction false} RunConcat(s: Store, a: seq<Write>, b: seq<Write>)
    ensures Run(s, a + b) == Run(Run(s, a), b)
    decreases |a|
  {
    if a == [] {
      assert a + b == b;
    } else {
      assert (a + b)[1..] == a[1..] + b;
      RunConcat(Exec(s, a[0]), a[1..], b);
    }
  }

  lemma RunTwo(s: Store, v: Write, w: Write)
    ensures Run(s, [v]) == Exec(s, v)
    ensures Run(s, [v, w]) == Exec(Exec(s, v), w)
  {
    assert [v][1..] == [] && [v, w][1..] == [w] && [w][1..] == [];
    assert Run(Exec(s, v), [w]) == Exec(Exec(s, v), w);
  }

  lemma RunNothing(s: Store)
    ensures Run(s, []) == s
  {
  }

  lemma RunThree(s: Store, u: Write, v: Write, w: Write)
    ensures Run(s, [u, v, w]) == Exec(Exec(Exec(s, u), v), w)
  {
    assert [u, v, w][1..] == [v, w];
    RunTwo(Exec(s, u), v, w);
  }

  // ---- reading ----

  function LifecycleOf(s: Store): Lifecycle {
    if s.lifecycle.Some? then s.lifecycle.value else Lifecycle(false, {}, map[])
  }

  function Pending(s: Store): set<nat> { LifecycleOf(s).pending }

  predicate Mapped(s: Store, id: nat) {
    id in s.toApp || exists p :: p in s.byPair && s.byPair[p] == id
  }

  function KnownIds(s: Store, state: Lifecycle): set<nat> {
    s.toApp.Keys + (set p | p in s.byPair :: s.byPair[p]) + state.pending + state.assignments.Keys + s.freeIds
  }

  predicate SafeCounter(n: Option<int>) {
    n.Some? && 0 <= n.value <= MAX_SAFE
  }

  /** One more than the largest id, or zero. */
  ghost function Above(ids: set<nat>): (m: nat)
    ensures forall id | id in ids :: id < m
    ensures ids == {} ==> m == 0
    ensures ids != {} ==> m - 1 in ids
  {
    if ids == {} then 0
    else
      var id :| id in ids;
      var m := Above(ids - {id});
      assert ids == ids - {id} + {id};
      if id < m then m else id + 1
  }

  ghost function Least(ids: set<nat>): (m: nat)
    requires ids != {}
    ensures m in ids && forall id | id in ids :: m <= id
  {
    var id :| id in ids;
    if ids == {id} then id
    else
      assert ids == ids - {id} + {id};
      var m := Least(ids - {id});
      if id < m then id else m
  }

  // ---- plans ----

  /** `initializeSubdomainLifecycle`: an unversioned free list is quarantined before it is dropped. */
  function InitPlan(s: Store): seq<Write> {
    var state := LifecycleOf(s);
    if state.current then []
    else [PutLifecycle(Lifecycle(true, state.pending + s.freeIds, state.assignments)), PutFree({})]
  }

  function Initialized(s: Store): Store { Run(s, InitPlan(s)) }

  /** Ids holding a token that are neither quarantined, free nor mapped. */
  function LostIds(s: Store): set<nat> {
    set id | id in LifecycleOf(s).assignments && id !in Pending(s) && id !in s.freeIds && !Mapped(s, id)
  }

  ghost function MaintainTail(s: Store): seq<Write> {
    var state := LifecycleOf(s);
    var lost := LostIds(s);
    var next := state.(pending := state.pending + lost);
    var minimum := Above(KnownIds(s, next));
    (if lost != {} then [PutLifecycle(next)] else [])
    + (if minimum <= MAX_SAFE && ((s.nextId.Some? && !SafeCounter(s.nextId))
                                  || (minimum > 0 && (!SafeCounter(s.nextId) || s.nextId.value < minimum)))
       then [PutNext(minimum)] else [])
  }

  ghost function MaintainPlan(s: Store): seq<Write> {
    InitPlan(s) + MaintainTail(Initialized(s))
  }

  datatype Allocation = Assigned(id: nat) | MappedToAnother | Exhausted

  ghost function Reusable(s: Store): set<nat> {
    set id | id in s.freeIds && id !in Pending(s) && !Mapped(s, id)
  }

  ghost function FreshId(s: Store): nat {
    var known := Above(KnownIds(s, LifecycleOf(s)));
    if SafeCounter(s.nextId) && known < s.nextId.value then s.nextId.value else known
  }

  function Assign(s: Store, id: nat, pair: Pair, token: nat): seq<Write> {
    var state := LifecycleOf(s);
    [PutLifecycle(state.(assignments := state.assignments[id := token])), PutToApp(id, pair), PutByPair(pair, id)]
  }

  /** Ids whose reverse mapping already names the pair. */
  function ReverseOf(s: Store, pair: Pair): set<nat> {
    set id | id in s.toApp && s.toApp[id] == pair
  }

  ghost function AllocateTail(s: Store, pair: Pair, token: nat): (seq<Write>, Allocation) {
    if pair in s.byPair then
      var id := s.byPair[pair];
      if id in s.toApp && s.toApp[id] != pair then ([], MappedToAnother)
      else (if id in s.toApp then [] else [PutToApp(id, pair)], Assigned(id))
    else if ReverseOf(s, pair) != {} then
      var id := Least(ReverseOf(s, pair));
      ([PutByPair(pair, id)], Assigned(id))
    else if Reusable(s) != {} then
      var id := Least(Reusable(s));
      ([PutFree(s.freeIds - {id})] + Assign(s, id, pair, token), Assigned(id))
    else
      var id := FreshId(s);
      if id + 1 > MAX_SAFE then ([], Exhausted)
      else ([PutNext(id + 1)] + Assign(s, id, pair, token), Assigned(id))
  }

  ghost function AllocatePlan(s: Store, pair: Pair, token: nat): seq<Write> {
    InitPlan(s) + AllocateTail(Initialized(s), pair, token).0
  }

  /** Quarantine is durable before the mappings disappear. */
  function RetireTail(s: Store, id: nat): seq<Write> {
    var state := LifecycleOf(s);
    [PutLifecycle(state.(pending := state.pending + {id})), PutFree(s.freeIds - {id})]
    + (if id in s.toApp && s.toApp[id] in s.byPair && s.byPair[s.toApp[id]] == id then [DropByPair(s.toApp[id])] else [])
    + [DropToApp(id)]
  }

  function RetirePlan(s: Store, id: nat): seq<Write> {
    InitPlan(s) + RetireTail(Initialized(s), id)
  }

  predicate Owns(s: Store, pair: Pair, id: nat) {
    pair in s.byPair && s.byPair[pair] == id && id in s.toApp && s.toApp[id] == pair
  }

  function ReleasePlan(s: Store, pair: Pair, id: nat): seq<Write> {
    if Owns(s, pair, id) then RetirePlan(s, id) else []
  }

  /** The cleanup commits: free first, then out of quarantine; the state it writes has the current version. */
  function FreePlan(s: Store, id: nat): seq<Write> {
    var state := LifecycleOf(s);
    [PutFree(s.freeIds + {id}), PutLifecycle(state.(current := true, pending := state.pending - {id}))]
  }

  predicate Eligible(s: Store, id: nat) {
    id in Pending(s) && !Mapped(s, id)
  }

  /** Selection of `retireSubdomainsFor`: an absent user or app matches every one. */
  predicate Matches(user: Option<string>, app: Option<string>, p: Pair) {
    (user.None? || user.value == p.user) && (app.None? || app.value == p.app)
  }

  /** Mapped ids of the selected pairs, but never an origin that now belongs to another pair. */
  function SelectedIds(s: Store, user: Option<string>, app: Option<string>): set<nat> {
    (set id | id in s.toApp && Matches(user, app, s.toApp[id]))
    + (set p | p in s.byPair && Matches(user, app, p) && (s.byPair[p] !in s.toApp || s.toApp[s.byPair[p]] == p) :: s.byPair[p])
  }

  /** One id retired by `retireSubdomainsFor`, then every remaining forward key that names it. */
  datatype Retirement = Retirement(id: nat, stray: seq<Pair>)

  function DropPairs(pairs: seq<Pair>): (r: seq<Write>)
    ensures |r| == |pairs| && forall i | 0 <= i < |pairs| :: r[i] == DropByPair(pairs[i])
  {
    seq(|pairs|, i requires 0 <= i < |pairs| => DropByPair(pairs[i]))
  }

  function RetireOne(s: Store, r: Retirement): seq<Write> {
    RetirePlan(s, r.id) + DropPairs(r.stray)
  }

  function RetireForPlan(s: Store, rs: seq<Retirement>): seq<Write> {
    if rs == [] then []
    else
      var n := |rs| - 1;
      var before := RetireForPlan(s, rs[..n]);
      before + RetireOne(Run(s, before), rs[n])
  }

  ghost predicate AllStrays(s: Store, r: Retirement) {
    var after := Run(s, RetirePlan(s, r.id));
    forall p :: p in r.stray <==> p in after.byPair && after.byPair[p] == r.id
  }

  /** Each retirement drops exactly the forward keys that still name its id. */
  ghost predicate Thorough(s: Store, rs: seq<Retirement>) {
    rs == [] ||
    var n := |rs| - 1;
    Thorough(s, rs[..n]) && AllStrays(Run(s, RetireForPlan(s, rs[..n])), rs[n])
  }

  function Ids(rs: seq<Retirement>): (r: set<nat>) {
    set i | 0 <= i < |rs| :: rs[i].id
  }

  ghost predicate DistinctIds(rs: seq<Retirement>) {
    forall i, j | 0 <= i < j < |rs| :: rs[i].id != rs[j].id
  }

  /** What a tab does while it holds the mapping lock. */
  datatype Op =
    | Allocate(pair: Pair, token: nat)
    | Release(pair: Pair, id: nat)
    | Retire(id: nat)
    | RetireFor(rs: seq<Retirement>)
    | Maintain

  ghost function PlanOf(s: Store, op: Op): seq<Write> {
    match op
    case Allocate(pair, token) => AllocatePlan(s, pair, token)
    case Release(pair, id) => ReleasePlan(s, pair, id)
    case Retire(id) => RetirePlan(s, id)
    case RetireFor(rs) => RetireForPlan(s, rs)
    case Maintain => MaintainPlan(s)
  }

  // ---- the storage, written key by key ----

  class Storage {
    var byPair: map<Pair, nat>
    var toApp: map<nat, Pair>
    var freeIds: set<nat>
    var nextId: Option<int>
    var lifecycle: Option<Lifecycle>
    ghost var log: seq<Write>

    function Contents(): Store
      reads this
    {
      Store(byPair, toApp, freeIds, nextId, lifecycle)
    }

    constructor ()
      ensures Contents() == Store(map[], map[], {}, None, None) && log == []
    {
      byPair, toApp, freeIds, nextId, lifecycle, log := map[], map[], {}, None, None, [];
    }

    method Put(w: Write)
      modifies this
      ensures Contents() == Exec(old(Contents()), w) && log == old(log) + [w]
    {
      match w {
        case PutLifecycle(state) => lifecycle := Some(state);
        case PutFree(ids) => freeIds := ids;
        case PutNext(next) => nextId := Some(next);
        case PutToApp(id, pair) => toApp := toApp[id := pair];
        case DropToApp(id) => toApp := toApp - {id};
        case PutByPair(pair, id) => byPair := byPair[pair := id];
        case DropByPair(pair) => byPair := byPair - {pair};
      }
      log := log + [w];
    }

    method InitializeLifecycle() returns (state: Lifecycle)
      modifies this
      ensures log == old(log) + InitPlan(old(Contents())) && Contents() == Initialized(old(Contents()))
      ensures state == LifecycleOf(Contents()) && lifecycle.Some?
    {
      state := LifecycleOf(Contents());
      if !state.current {
        state := Lifecycle(true, state.pending + freeIds, state.assignments);
        RunTwo(Contents(), PutLifecycle(state), PutFree({}));
        Put(PutLifecycle(state));
        Put(PutFree({}));
      }
    }

    /** The largest id plus one, as the reduction over the known ids computes it. */
    method AboveAll(ids: set<nat>) returns (m: nat)
      ensures m == Above(ids)
    {
      m := 0;
      var todo := ids;
      while todo != {}
        invariant todo <= ids
        invariant forall id | id in ids && id !in todo :: id < m
        invariant (m == 0 && todo == ids) || (m > 0 && m - 1 in ids)
      {
        var id :| id in todo;
        todo := todo - {id};
        if id + 1 > m { m := id + 1; }
      }
    }

    /** First hit in ascending order. */
    method First(ids: set<nat>) returns (m: nat)
      requires ids != {}
      ensures m == Least(ids)
    {
      m :| m in ids;
      var todo := ids - {m};
      while todo != {}
        invariant todo <= ids && m in ids
        invariant forall id | id in ids && id !in todo :: m <= id
      {
        var id :| id in todo;
        todo := todo - {id};
        if id < m { m := id; }
      }
    }

    method Maintain() returns (state: Lifecycle)
      modifies this
      ensures log == old(log) + MaintainPlan(old(Contents())) && Contents() == Run(old(Contents()), MaintainPlan(old(Contents())))
      ensures state == LifecycleOf(Contents())
    {
      hide Run, InitPlan, MaintainTail;
      state := InitializeLifecycle();
      RunConcat(old(Contents()), InitPlan(old(Contents())), MaintainTail(Contents()));
      state := QuarantineLost(state);
    }

    /** Quarantines lost ids and repairs the counter. */
    method QuarantineLost(was: Lifecycle) returns (state: Lifecycle)
      requires was == LifecycleOf(Contents()) && lifecycle.Some?
      modifies this
      ensures log == old(log) + MaintainTail(old(Contents())) && Contents() == Run(old(Contents()), MaintainTail(old(Contents())))
      ensures state == LifecycleOf(Contents())
    {
      hide Run, LostIds, Above, KnownIds;
      ghost var s := Contents();
      state := was;
      var queued := LostIds(Contents());
      if queued != {} {
        state := state.(pending := state.pending + queued);
        Put(PutLifecycle(state));
      } else {
        assert state.(pending := state.pending + queued) == state;
      }
      SameKnown(s, Contents(), state);
      var minimum := AboveAll(KnownIds(Contents(), state));
      var invalid := nextId.Some? && !SafeCounter(nextId);
      var advance := minimum > 0 && (!SafeCounter(nextId) || nextId.value < minimum);
      if minimum <= MAX_SAFE && (invalid || advance) { Put(PutNext(minimum)); }
      RunTwo(s, PutLifecycle(state), PutNext(minimum));
      RunTwo(s, PutNext(minimum), PutNext(minimum));
      RunNothing(s);
      assert MaintainTail(s) == (if queued != {} then [PutLifecycle(state)] else [])
                                + (if minimum <= MAX_SAFE && (invalid || advance) then [PutNext(minimum)] else []);
      assert [PutLifecycle(state)] + [PutNext(minimum)] == [PutLifecycle(state), PutNext(minimum)];
      assert [] + [PutNext(minimum)] == [PutNext(minimum)] && [PutLifecycle(state)] + [] == [PutLifecycle(state)];
    }

    method Allocate(pair: Pair, token: nat) returns (result: Allocation)
      modifies this
      ensures log == old(log) + AllocatePlan(old(Contents()), pair, token)
      ensures Contents() == Run(old(Contents()), AllocatePlan(old(Contents()), pair, token))
      ensures result == AllocateTail(Initialized(old(Contents())), pair, token).1
    {
      hide Run, InitPlan, AllocateTail;
      var state := InitializeLifecycle();
      RunConcat(old(Contents()), InitPlan(old(Contents())), AllocateTail(Contents(), pair, token).0);
      result := AllocateInitialized(pair, token);
    }

    method AllocateInitialized(pair: Pair, token: nat) returns (result: Allocation)
      requires lifecycle.Some?
      modifies this
      ensures var (plan, outcome) := AllocateTail(old(Contents()), pair, token);
              log == old(log) + plan && Contents() == Run(old(Contents()), plan) && result == outcome
    {
      hide Run, Assign, FreshId, Least, Above, KnownIds;
      RunNothing(Contents());
      ghost var s := Contents();
      if pair in byPair {
        var id := byPair[pair];
        if id in toApp && toApp[id] != pair { return MappedToAnother; }
        if id !in toApp {
          RunTwo(s, PutToApp(id, pair), PutToApp(id, pair));
          Put(PutToApp(id, pair));
        }
        return Assigned(id);
      }
      var named := ReverseOf(Contents(), pair);
      if named != {} {
        var id := First(named);
        RunTwo(s, PutByPair(pair, id), PutByPair(pair, id));
        Put(PutByPair(pair, id));
        return Assigned(id);
      }
      var usable := set id | id in freeIds && id !in lifecycle.value.pending && !Mapped(Contents(), id);
      assert usable == Reusable(s);
      var id;
      ghost var first;
      if usable != {} {
        id := First(usable);
        first := PutFree(freeIds - {id});
        Put(PutFree(freeIds - {id}));
      } else {
        id := ProbeFresh();
        if id + 1 > MAX_SAFE { return Exhausted; }
        first := PutNext(id + 1);
        Put(PutNext(id + 1));
      }
      RunTwo(s, first, first);
      RunConcat(s, [first], Assign(s, id, pair, token));
      ghost var plan := Assign(s, id, pair, token);
      assert Assign(Contents(), id, pair, token) == plan by { AssignSame(s, Contents(), id, pair, token); }
      AssignTo(id, pair, token);
      assert old(log) + [first] + plan == old(log) + ([first] + plan);
      result := Assigned(id);
    }

    /** The counter or one above all known ids, whichever is larger; stepping over mapped ids never has to happen. */
    method ProbeFresh() returns (id: nat)
      ensures id == FreshId(Contents())
    {
      id := AboveAll(KnownIds(Contents(), LifecycleOf(Contents())));
      if SafeCounter(nextId) && id < nextId.value { id := nextId.value; }
      FreshUnmapped(Contents());
      id := ProbeFrom(id);
    }

    method ProbeFrom(start: nat) returns (id: nat)
      ensures start <= id && id !in toApp && forall x | start <= x < id :: x in toApp
    {
      id := start;
      while id in toApp
        invariant start <= id
        invariant forall x | start <= x < id :: x in toApp
        decreases set x | x in toApp && id <= x
      {
        ghost var now, next := set x | x in toApp && id <= x, set x | x in toApp && id + 1 <= x;
        assert id in now && id !in next;
        id := id + 1;
      }
    }

    method AssignTo(id: nat, pair: Pair, token: nat)
      modifies this
      ensures log == old(log) + Assign(old(Contents()), id, pair, token)
      ensures Contents() == Run(old(Contents()), Assign(old(Contents()), id, pair, token))
    {
      var state := LifecycleOf(Contents());
      var next := state.(assignments := state.assignments[id := token]);
      RunThree(Contents(), PutLifecycle(next), PutToApp(id, pair), PutByPair(pair, id));
      Put(PutLifecycle(next));
      Put(PutToApp(id, pair));
      Put(PutByPair(pair, id));
    }

    method Retire(id: nat)
      modifies this
      ensures log == old(log) + RetirePlan(old(Contents()), id) && Contents() == Run(old(Contents()), RetirePlan(old(Contents()), id))
    {
      hide Run, InitPlan, RetireTail;
      var state := InitializeLifecycle();
      RunConcat(old(Contents()), InitPlan(old(Contents())), RetireTail(Contents(), id));
      Quarantine(id, state);
    }

    method Quarantine(id: nat, was: Lifecycle)
      requires was == LifecycleOf(Contents())
      modifies this
      ensures log == old(log) + RetireTail(old(Contents()), id) && Contents() == Run(old(Contents()), RetireTail(old(Contents()), id))
    {
      RetireTailShape(Contents(), id);
      hide Run, RetireTail;
      ghost var s := Contents();
      var state := was.(pending := was.pending + {id});
      RunTwo(s, PutLifecycle(state), PutFree(freeIds - {id}));
      Put(PutLifecycle(state));
      Put(PutFree(freeIds - {id}));
      ghost var first := [PutLifecycle(state), PutFree(s.freeIds - {id})];
      if id in toApp && toApp[id] in byPair && byPair[toApp[id]] == id {
        RunTwo(Contents(), DropByPair(toApp[id]), DropToApp(id));
        RunConcat(s, first, [DropByPair(toApp[id]), DropToApp(id)]);
        Put(DropByPair(toApp[id]));
      } else {
        RunTwo(Contents(), DropToApp(id), DropToApp(id));
        RunConcat(s, first, [DropToApp(id)]);
      }
      Put(DropToApp(id));
    }

    method Release(pair: Pair, id: nat) returns (released: bool)
      modifies this
      ensures log == old(log) + ReleasePlan(old(Contents()), pair, id) && Contents() == Run(old(Contents()), ReleasePlan(old(Contents()), pair, id))
      ensures released <==> old(Owns(Contents(), pair, id))
    {
      if !Owns(Contents(), pair, id) { return false; }
      Retire(id);
      released := true;
    }

    method RetireFor(user: Option<string>, app: Option<string>) returns (count: nat, ghost rs: seq<Retirement>)
      modifies this
      ensures Ids(rs) == old(SelectedIds(Contents(), user, app)) && count == |rs| && DistinctIds(rs)
      ensures RetiredSoFar(old(Contents()), old(log), rs, Contents(), log)
    {
      hide Run, RetireOne, RetiredSoFar;
      ghost var s, base := Contents(), log;
      var ids := SelectedIds(Contents(), user, app);
      var todo := ids;
      count, rs := 0, [];
      NothingRetired(s, base);
      while todo != {}
        invariant todo <= ids && Ids(rs) == ids - todo && count == |rs| && DistinctIds(rs)
        invariant RetiredSoFar(s, base, rs, Contents(), log)
      {
        var id :| id in todo;
        todo := todo - {id};
        rs := RetireAnother(id, s, base, rs);
        count := count + 1;
      }
    }

    method RetireAnother(id: nat, ghost s: Store, ghost base: seq<Write>, ghost rs: seq<Retirement>) returns (ghost more: seq<Retirement>)
      requires RetiredSoFar(s, base, rs, Contents(), log) && DistinctIds(rs) && id !in Ids(rs)
      modifies this
      ensures Ids(more) == Ids(rs) + {id} && DistinctIds(more) && |more| == |rs| + 1
      ensures RetiredSoFar(s, base, more, Contents(), log)
    {
      hide Run, RetireOne, RetiredSoFar, AllStrays;
      ghost var now, written := Contents(), log;
      ghost var stray := RetireWithStrays(id);
      more := rs + [Retirement(id, stray)];
      RetireNext(s, base, rs, now, written, Retirement(id, stray));
      IdsOneMore(rs, Retirement(id, stray));
    }

    method RetireWithStrays(id: nat) returns (ghost stray: seq<Pair>)
      modifies this
      ensures AllStrays(old(Contents()), Retirement(id, stray))
      ensures log == old(log) + RetireOne(old(Contents()), Retirement(id, stray))
      ensures Contents() == Run(old(Contents()), RetireOne(old(Contents()), Retirement(id, stray)))
    {
      hide Run, RetirePlan;
      ghost var s := Contents();
      Retire(id);
      ghost var after := Contents();
      ghost var retired := log;
      stray := [];
      RunNothing(after);
      assert DropPairs([]) == [];
      var todo := set p | p in byPair && byPair[p] == id;
      while todo != {}
        invariant todo == set p | p in byPair && byPair[p] == id
        invariant forall p :: p in stray || p in todo <==> p in after.byPair && after.byPair[p] == id
        invariant log == retired + DropPairs(stray) && Contents() == Run(after, DropPairs(stray))
        decreases todo
      {
        var p :| p in todo;
        assert DropPairs(stray + [p]) == DropPairs(stray) + [DropByPair(p)];
        RunConcat(after, DropPairs(stray), [DropByPair(p)]);
        RunTwo(Contents(), DropByPair(p), DropByPair(p));
        Put(DropByPair(p));
        todo := todo - {p};
        stray := stray + [p];
      }
      RunConcat(s, RetirePlan(s, id), DropPairs(stray));
    }

    /** The last step of a confirmed cleanup, under the mapping lock. */
    method Free(id: nat) returns (freed: bool)
      modifies this
      ensures freed <==> old(Eligible(Contents(), id))
      ensures var plan := if freed then FreePlan(old(Contents()), id) else [];
              log == old(log) + plan && Contents() == Run(old(Contents()), plan)
    {
      if !Eligible(Contents(), id) { return false; }
      var state := LifecycleOf(Contents());
      var next := state.(current := true, pending := state.pending - {id});
      RunTwo(Contents(), PutFree(freeIds + {id}), PutLifecycle(next));
      Put(PutFree(freeIds + {id}));
      Put(PutLifecycle(next));
      freed := true;
    }
  }

  lemma AssignSame(s: Store, t: Store, id: nat, pair: Pair, token: nat)
    requires LifecycleOf(s) == LifecycleOf(t)
    ensures Assign(s, id, pair, token) == Assign(t, id, pair, token)
  {
  }

  lemma SameKnown(s: Store, t: Store, state: Lifecycle)
    requires s.toApp == t.toApp && s.byPair == t.byPair && s.freeIds == t.freeIds
    ensures KnownIds(s, state) == KnownIds(t, state)
  {
  }

  /** A fresh id is above every known id, so it is never mapped: the probing loop does not iterate. */
  lemma FreshUnmapped(s: Store)
    ensures FreshId(s) !in KnownIds(s, LifecycleOf(s))
    ensures !Mapped(s, FreshId(s)) && FreshId(s) !in s.freeIds && FreshId(s) !in Pending(s)
    ensures FreshId(s) !in s.toApp
  {
  }

  lemma PlanOneMore(s: Store, rs: seq<Retirement>, r: Retirement)
    ensures RetireForPlan(s, rs + [r]) == RetireForPlan(s, rs) + RetireOne(Run(s, RetireForPlan(s, rs)), r)
  {
    assert (rs + [r])[..|rs|] == rs;
  }

  lemma RunOneMore(s: Store, rs: seq<Retirement>, r: Retirement)
    ensures Run(s, RetireForPlan(s, rs + [r])) == Run(Run(s, RetireForPlan(s, rs)), RetireOne(Run(s, RetireForPlan(s, rs)), r))
  {
    PlanOneMore(s, rs, r);
    RunConcat(s, RetireForPlan(s, rs), RetireOne(Run(s, RetireForPlan(s, rs)), r));
  }

  ghost predicate RetiredSoFar(s: Store, base: seq<Write>, rs: seq<Retirement>, now: Store, log: seq<Write>) {
    Thorough(s, rs) && log == base + RetireForPlan(s, rs) && now == Run(s, RetireForPlan(s, rs))
  }

  lemma NothingRetired(s: Store, base: seq<Write>)
    ensures RetiredSoFar(s, base, [], s, base)
    ensures Ids([]) == {}
  {
  }

  lemma RetireNext(s: Store, base: seq<Write>, rs: seq<Retirement>, now: Store, log: seq<Write>, r: Retirement)
    requires RetiredSoFar(s, base, rs, now, log) && AllStrays(now, r)
    ensures RetiredSoFar(s, base, rs + [r], Run(now, RetireOne(now, r)), log + RetireOne(now, r))
  {
    hide Run, RetireOne, RetireForPlan, AllStrays;
    assert (rs + [r])[..|rs|] == rs && (rs + [r])[|rs|] == r;
    PlanOneMore(s, rs, r);
    RunOneMore(s, rs, r);
  }

  lemma IdsOneMore(rs: seq<Retirement>, r: Retirement)
    ensures Ids(rs + [r]) == Ids(rs) + {r.id}
    ensures DistinctIds(rs) && r.id !in Ids(rs) ==> DistinctIds(rs + [r])
  {
    var more := rs + [r];
    forall id ensures id in Ids(more) <==> id in Ids(rs) + {r.id} {
      if id in Ids(rs) {
        var i :| 0 <= i < |rs| && rs[i].id == id;
        assert more[i].id == id;
      }
      if id == r.id { assert more[|rs|].id == id; }
    }
  }

  lemma RetireTailShape(s: Store, id: nat)
    ensures RetireTail(s, id) ==
            [PutLifecycle(LifecycleOf(s).(pending := Pending(s) + {id})), PutFree(s.freeIds - {id})]
            + if id in s.toApp && s.toApp[id] in s.byPair && s.byPair[s.toApp[id]] == id
              then [DropByPair(s.toApp[id]), DropToApp(id)] else [DropToApp(id)]
  {
    if id in s.toApp && s.toApp[id] in s.byPair && s.byPair[s.toApp[id]] == id {
      assert [DropByPair(s.toApp[id])] + [DropToApp(id)] == [DropByPair(s.toApp[id]), DropToApp(id)];
    }
  }
}
