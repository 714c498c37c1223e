/** The queue that batches coverage claims: requests per coverage store, one timer, a chain of batches in flight. */
module Checkpoints {
  import opened Basics

  /** Requests waiting for one coverage store. */
  datatype Group = Group(coverage: nat, requests: seq<nat>)

  datatype Claim = Claim(coverage: nat, request: nat)

  /**
   * `flight` is the chain of taken batches that have not settled, oldest first; `failure` holds one error for the
   * next flush. Histories: claims accepted, claims of batches that their stores committed or refused, claims dropped.
   */
  datatype State = State(groups: seq<Group>, flight: seq<seq<Group>>, timer: bool, failure: Option<nat>, stopped: bool, aborted: bool,
                         accepted: seq<Claim>, committed: seq<Claim>, failed: seq<Claim>, dropped: seq<Claim>)

  function Claims(g: Group): (r: seq<Claim>)
    ensures |r| == |g.requests| && forall i | 0 <= i < |r| :: r[i] == Claim(g.coverage, g.requests[i])
  {
    seq(|g.requests|, i requires 0 <= i < |g.requests| => Claim(g.coverage, g.requests[i]))
  }

  function AllClaims(groups: seq<Group>): seq<Claim> {
    if groups == [] then [] else Claims(groups[0]) + AllClaims(groups[1..])
  }

  function FlightClaims(flight: seq<seq<Group>>): seq<Claim> {
    if flight == [] then [] else AllClaims(flight[0]) + FlightClaims(flight[1..])
  }

  predicate Closed(q: State) { q.stopped || q.aborted }

  predicate HasPending(groups: seq<Group>) { exists i | 0 <= i < |groups| :: groups[i].requests != [] }

  function Living(requests: seq<nat>, dead: nat -> bool): seq<nat> {
    if requests == [] then [] else (if dead(requests[0]) then [] else [requests[0]]) + Living(requests[1..], dead)
  }

  /** Groups that stay, emptied: those that still had a living request. */
  function Kept(groups: seq<Group>, dead: nat -> bool): seq<Group> {
    if groups == [] then []
    else (if Living(groups[0].requests, dead) == [] then [] else [groups[0].(requests := [])]) + Kept(groups[1..], dead)
  }

  function Jobs(groups: seq<Group>, dead: nat -> bool): seq<Group> {
    if groups == [] then []
    else
      var living := Living(groups[0].requests, dead);
      (if living == [] then [] else [groups[0].(requests := living)]) + Jobs(groups[1..], dead)
  }

  /** Claims of aborted requests, which a take leaves out. */
  function Dead(groups: seq<Group>, dead: nat -> bool): seq<Claim> {
    if groups == [] then []
    else Claims(groups[0].(requests := Living(groups[0].requests, (r: nat) => !dead(r)))) + Dead(groups[1..], dead)
  }

  function Scheduled(q: State): State {
    if Closed(q) || !HasPending(q.groups) then q else q.(timer := true)
  }

  function Drained(q: State, dead: nat -> bool): State {
    if Closed(q) then q.(groups := [], dropped := q.dropped + AllClaims(q.groups))
    else
      var jobs := Jobs(q.groups, dead);
      var taken := q.(groups := Kept(q.groups, dead), dropped := q.dropped + Dead(q.groups, dead));
      if jobs == [] then taken else taken.(flight := q.flight + [jobs])
  }

  /** One round of a flush; on a closed queue a flush leaves its loop without draining. */
  function FlushRound(q: State, dead: nat -> bool): State { if Closed(q) then q else Drained(q, dead) }

  function Added(groups: seq<Group>, coverage: nat, request: nat): seq<Group> {
    if groups == [] then [Group(coverage, [request])]
    else if groups[0].coverage == coverage then [groups[0].(requests := groups[0].requests + [request])] + groups[1..]
    else [groups[0]] + Added(groups[1..], coverage, request)
  }

  function Queued(q: State, coverage: nat, request: nat, gone: bool): State {
    if Closed(q) || gone then q
    else Scheduled(q.(groups := Added(q.groups, coverage, request), accepted := q.accepted + [Claim(coverage, request)]))
  }

  function FirstError(results: seq<Option<nat>>): Option<nat> {
    if results == [] then None else if results[0].Some? then results[0] else FirstError(results[1..])
  }

  /** Claims of the stores that answered so. */
  function Answered(groups: seq<Group>, results: seq<Option<nat>>, failed: bool): seq<Claim>
    requires |groups| == |results|
  {
    if groups == [] then []
    else (if results[0].Some? == failed then Claims(groups[0]) else []) + Answered(groups[1..], results[1..], failed)
  }

  /** The oldest batch settled, store by store. */
  function Settled(q: State, results: seq<Option<nat>>): State
    requires q.flight != [] && |results| == |q.flight[0]|
  {
    Scheduled(q.(flight := q.flight[1..],
                 committed := q.committed + Answered(q.flight[0], results, false),
                 failed := q.failed + Answered(q.flight[0], results, true),
                 failure := if q.failure.Some? then q.failure else FirstError(results)))
  }

  function StoppedOf(q: State): State {
    q.(stopped := true, timer := false, groups := [], dropped := q.dropped + AllClaims(q.groups))
  }

  datatype Event =
    | Queue(coverage: nat, request: nat, gone: bool)
    | TimerFires(dead: nat -> bool)
    | BeginFlush(dead: nat -> bool)
    | FlushAgain(dead: nat -> bool)
    | Settle(results: seq<Option<nat>>)
    | EndFlush
    | Abort
    | Stop

  predicate Enabled(q: State, e: Event) {
    match e
    case TimerFires(_) => q.timer
    case Settle(results) => q.flight != [] && |results| == |q.flight[0]|
    case _ => true
  }

  function Happen(q: State, e: Event): State
    requires Enabled(q, e)
  {
    match e
    case Queue(coverage, request, gone) => Queued(q, coverage, request, gone)
    case TimerFires(dead) => Drained(q.(timer := false), dead)
    case BeginFlush(dead) => FlushRound(q.(timer := false), dead)
    case FlushAgain(dead) => FlushRound(q, dead)
    case Settle(results) => Settled(q, results)
    case EndFlush => q.(failure := None)
    case Abort => q.(aborted := true)
    case Stop => StoppedOf(q)
  }

  // ---- conservation ----

  /** Claims that their stores have answered. */
  ghost function Handed(q: State): multiset<Claim> { multiset(q.committed) + multiset(q.failed) }

  /** Every accepted claim is waiting, in flight, committed, failed or dropped: none is lost, none duplicated. */
  ghost predicate Conserved(q: State) {
    multiset(q.accepted) == multiset(AllClaims(q.groups)) + multiset(FlightClaims(q.flight)) + Handed(q) + multiset(q.dropped)
  }

  /** No store is called without a request. */
  ghost predicate Solid(q: State) {
    forall jobs | jobs in q.flight :: Nonempty(jobs)
  }

  ghost predicate Nonempty(jobs: seq<Group>) { forall g | g in jobs :: g.requests != [] }

  /** While the queue is open, waiting requests have a timer; a closed queue only loses what was never handed over. */
  ghost predicate Awake(q: State) {
    !Closed(q) && HasPending(q.groups) ==> q.timer
  }

  ghost predicate Inv(q: State) { Conserved(q) && Awake(q) && Solid(q) }

  lemma {:induction false} LivingSplit(requests: seq<nat>, dead: nat -> bool, coverage: nat)
    ensures multiset(Claims(Group(coverage, requests)))
         == multiset(Claims(Group(coverage, Living(requests, dead)))) + multiset(Claims(Group(coverage, Living(requests, (r: nat) => !dead(r)))))
  {
    if requests != [] {
      var x, rest := requests[0], requests[1..];
      assert requests == [x] + rest;
      LivingOne(x, rest, dead);
      LivingOne(x, rest, (r: nat) => !dead(r));
      hide Living, Claims;
      LivingSplit(rest, dead, coverage);
      ClaimsCons(coverage, x, rest);
      ClaimsCons(coverage, x, Living(rest, dead));
      ClaimsCons(coverage, x, Living(rest, (r: nat) => !dead(r)));
    }
  }

  lemma LivingOne(x: nat, rest: seq<nat>, dead: nat -> bool)
    ensures Living([x] + rest, dead) == if dead(x) then Living(rest, dead) else [x] + Living(rest, dead)
  {
    assert ([x] + rest)[1..] == rest && ([x] + rest)[0] == x;
  }

  lemma ClaimsCons(coverage: nat, x: nat, rest: seq<nat>)
    ensures multiset(Claims(Group(coverage, [x] + rest))) == multiset{Claim(coverage, x)} + multiset(Claims(Group(coverage, rest)))
  {
    assert Claims(Group(coverage, [x] + rest)) == [Claim(coverage, x)] + Claims(Group(coverage, rest));
  }

  lemma ClaimsSnoc(coverage: nat, rest: seq<nat>, x: nat)
    ensures multiset(Claims(Group(coverage, rest + [x]))) == multiset(Claims(Group(coverage, rest))) + multiset{Claim(coverage, x)}
  {
    assert Claims(Group(coverage, rest + [x])) == Claims(Group(coverage, rest)) + [Claim(coverage, x)];
  }

  lemma AllClaimsCons(g: Group, rest: seq<Group>)
    ensures AllClaims([g] + rest) == Claims(g) + AllClaims(rest)
    ensures multiset(AllClaims([g] + rest)) == multiset(Claims(g)) + multiset(AllClaims(rest))
  {
    assert ([g] + rest)[1..] == rest;
  }

  lemma NothingLeft(groups: seq<Group>, dead: nat -> bool)
    requires groups == []
    ensures Kept(groups, dead) == [] && Jobs(groups, dead) == [] && Dead(groups, dead) == [] && AllClaims(groups) == []
  {
  }

  /** One step of a take, group by group. */
  lemma TakeOne(g: Group, rest: seq<Group>, dead: nat -> bool)
    ensures var living := Living(g.requests, dead);
            var gone := Living(g.requests, (r: nat) => !dead(r));
            && Jobs([g] + rest, dead) == (if living == [] then Jobs(rest, dead) else [g.(requests := living)] + Jobs(rest, dead))
            && Kept([g] + rest, dead) == (if living == [] then Kept(rest, dead) else [g.(requests := [])] + Kept(rest, dead))
            && Dead([g] + rest, dead) == Claims(g.(requests := gone)) + Dead(rest, dead)
            && (living == [] ==> Claims(g.(requests := living)) == [])
            && Claims(g.(requests := [])) == []
  {
    assert ([g] + rest)[1..] == rest && ([g] + rest)[0] == g;
    hide Living;
  }

  lemma {:induction false} TakeSplits(groups: seq<Group>, dead: nat -> bool)
    ensures multiset(AllClaims(groups)) == multiset(AllClaims(Jobs(groups, dead))) + multiset(Dead(groups, dead))
    ensures AllClaims(Kept(groups, dead)) == [] && !HasPending(Kept(groups, dead))
  {
    hide *;
    if groups == [] {
      NothingLeft(groups, dead);
      NonePending(groups);
    } else {
      var g, rest := groups[0], groups[1..];
      assert groups == [g] + rest && g == Group(g.coverage, g.requests);
      TakeSplits(rest, dead);
      TakeOne(g, rest, dead);
      LivingSplit(g.requests, dead, g.coverage);
      AllClaimsCons(g, rest);
      AllClaimsCons(g.(requests := Living(g.requests, dead)), Jobs(rest, dead));
      AllClaimsCons(g.(requests := []), Kept(rest, dead));
      OnePending(g.(requests := []), Kept(rest, dead));
    }
  }

  lemma NonePending(groups: seq<Group>)
    requires groups == []
    ensures !HasPending(groups)
  {
  }

  lemma OnePending(g: Group, rest: seq<Group>)
    requires g.requests == [] && !HasPending(rest)
    ensures !HasPending([g] + rest)
  {
    forall i | 0 <= i < |[g] + rest| ensures ([g] + rest)[i].requests == [] {
      if i > 0 { assert ([g] + rest)[i] == rest[i - 1]; }
    }
  }

  lemma OneGroup(g: Group)
    ensures AllClaims([g]) == Claims(g)
    ensures g.requests == [] ==> Claims(g) == []
  {
    assert [g][1..] == [];
  }

  lemma {:induction false} AllClaimsConcat(a: seq<Group>, b: seq<Group>)
    ensures AllClaims(a + b) == AllClaims(a) + AllClaims(b)
  {
    if a == [] {
      assert a + b == b;
    } else {
      assert (a + b)[1..] == a[1..] + b && (a + b)[0] == a[0];
      assert AllClaims(a + b) == Claims(a[0]) + AllClaims(a[1..] + b) && AllClaims(a) == Claims(a[0]) + AllClaims(a[1..]);
      hide AllClaims, Claims;
      AllClaimsConcat(a[1..], b);
      Associates(Claims(a[0]), AllClaims(a[1..]), AllClaims(b));
    }
  }

  lemma {:induction false} FlightConcat(a: seq<seq<Group>>, b: seq<seq<Group>>)
    ensures FlightClaims(a + b) == FlightClaims(a) + FlightClaims(b)
  {
    if a == [] {
      assert a + b == b;
    } else {
      assert (a + b)[1..] == a[1..] + b && (a + b)[0] == a[0];
      assert FlightClaims(a + b) == AllClaims(a[0]) + FlightClaims(a[1..] + b) && FlightClaims(a) == AllClaims(a[0]) + FlightClaims(a[1..]);
      hide FlightClaims, AllClaims;
      FlightConcat(a[1..], b);
      Associates(AllClaims(a[0]), FlightClaims(a[1..]), FlightClaims(b));
    }
  }

  lemma OneFlight(jobs: seq<Group>)
    ensures FlightClaims([jobs]) == AllClaims(jobs)
  {
    assert [jobs][1..] == [];
  }

  lemma {:induction false} AddedClaims(groups: seq<Group>, coverage: nat, request: nat)
    ensures multiset(AllClaims(Added(groups, coverage, request))) == multiset(AllClaims(groups)) + multiset{Claim(coverage, request)}
    ensures HasPending(Added(groups, coverage, request))
  {
    if groups == [] {
      OneGroup(Group(coverage, [request]));
      assert Claims(Group(coverage, [request])) == [Claim(coverage, request)] && AllClaims([]) == [];
      assert Added(groups, coverage, request)[0].requests != [];
    } else {
      var g, rest := groups[0], groups[1..];
      assert groups == [g] + rest;
      AllClaimsCons(g, rest);
      if g.coverage == coverage {
        var more := g.(requests := g.requests + [request]);
        assert Added(groups, coverage, request) == [more] + rest && ([more] + rest)[0].requests != [];
        hide AllClaims, Claims;
        ClaimsSnoc(coverage, g.requests, request);
        assert g == Group(coverage, g.requests) && more == Group(coverage, g.requests + [request]);
        AllClaimsCons(more, rest);
      } else {
        AddedClaims(rest, coverage, request);
        var more := Added(rest, coverage, request);
        assert Added(groups, coverage, request) == [g] + more;
        hide AllClaims, Claims, Added;
        AllClaimsCons(g, more);
        var i :| 0 <= i < |more| && more[i].requests != [];
        assert ([g] + more)[i + 1].requests != [];
      }
    }
  }

  lemma DrainKeeps(q: State, dead: nat -> bool)
    requires Conserved(q)
    ensures var r := Drained(q, dead); Conserved(r) && !HasPending(r.groups) && AllClaims(r.groups) == []
  {
    TakeSplits(q.groups, dead);
    var jobs := Jobs(q.groups, dead);
    FlightConcat(q.flight, [jobs]);
    OneFlight(jobs);
    hide FlightClaims, Jobs, Kept, Dead;
  }

  lemma {:induction false} JobsNonempty(groups: seq<Group>, dead: nat -> bool)
    ensures Nonempty(Jobs(groups, dead))
  {
    hide Living;
    if groups != [] { JobsNonempty(groups[1..], dead); }
  }

  lemma EventSolid(q: State, e: Event)
    requires Solid(q) && Enabled(q, e)
    ensures Solid(Happen(q, e))
  {
    hide Jobs, Kept, Dead, Added, AllClaims, HasPending, FirstError, Answered, Nonempty;
    match e {
      case TimerFires(dead) => { JobsNonempty(q.groups, dead); }
      case BeginFlush(dead) => { JobsNonempty(q.groups, dead); }
      case FlushAgain(dead) => { JobsNonempty(q.groups, dead); }
      case _ => { }
    }
  }

  /** Every event keeps every claim and leaves nothing asleep. */
  lemma EventKeeps(q: State, e: Event)
    requires Inv(q) && Enabled(q, e)
    ensures Inv(Happen(q, e))
  {
    EventSolid(q, e);
    hide Conserved, HasPending, Drained, Solid;
    match e {
      case Queue(coverage, request, gone) => { QueueKeeps(q, coverage, request, gone); }
      case TimerFires(dead) => { TimerKeeps(q, dead); }
      case BeginFlush(dead) => { TimerKeeps(q, dead); }
      case FlushAgain(dead) => { DrainKeeps(q, dead); }
      case Settle(results) => { SettleKeeps(q, results); }
      case EndFlush => { SameClaims(q, Happen(q, e)); }
      case Abort => { SameClaims(q, Happen(q, e)); }
      case Stop => { StopKeeps(q); }
    }
  }

  lemma SameClaims(q: State, r: State)
    requires Conserved(q) && r.accepted == q.accepted && r.groups == q.groups && r.flight == q.flight && Handed(r) == Handed(q) && r.dropped == q.dropped
    ensures Conserved(r)
  {
  }

  lemma TimerKeeps(q: State, dead: nat -> bool)
    requires Conserved(q)
    ensures var r := Drained(q.(timer := false), dead); Conserved(r) && !HasPending(r.groups)
    ensures Conserved(q.(timer := false))
  {
    SameClaims(q, q.(timer := false));
    hide Conserved, Drained, HasPending;
    DrainKeeps(q.(timer := false), dead);
  }

  lemma QueueKeeps(q: State, coverage: nat, request: nat, gone: bool)
    requires Conserved(q)
    ensures Conserved(Queued(q, coverage, request, gone))
  {
    hide AllClaims, FlightClaims, HasPending, Added;
    AddedClaims(q.groups, coverage, request);
    var more := q.accepted + [Claim(coverage, request)];
    assert multiset(more) == multiset(q.accepted) + multiset{Claim(coverage, request)};
  }

  lemma SettleKeeps(q: State, results: seq<Option<nat>>)
    requires Conserved(q) && q.flight != [] && |results| == |q.flight[0]|
    ensures Conserved(Settled(q, results))
  {
    hide Answered, FlightClaims, AllClaims, FirstError, HasPending, Handed;
    FlightCons(q.flight);
    SettledHands(q, results);
  }

  lemma SettledHands(q: State, results: seq<Option<nat>>)
    requires q.flight != [] && |results| == |q.flight[0]|
    ensures Handed(Settled(q, results)) == Handed(q) + multiset(AllClaims(q.flight[0]))
  {
    hide Answered, AllClaims, FirstError, HasPending;
    AnsweredSplit(q.flight[0], results);
  }

  lemma {:induction false} AnsweredSplit(groups: seq<Group>, results: seq<Option<nat>>)
    requires |groups| == |results|
    ensures multiset(Answered(groups, results, false)) + multiset(Answered(groups, results, true)) == multiset(AllClaims(groups))
    ensures Nonempty(groups) ==> (Answered(groups, results, true) == [] <==> FirstError(results) == None)
  {
    if groups != [] {
      assert groups[0] in groups;
      AnsweredSplit(groups[1..], results[1..]);
      hide AllClaims, Answered, FirstError;
      AnsweredCons(groups, results);
    }
  }

  lemma AnsweredCons(groups: seq<Group>, results: seq<Option<nat>>)
    requires |groups| == |results| && groups != []
    ensures AllClaims(groups) == Claims(groups[0]) + AllClaims(groups[1..])
    ensures FirstError(results) == if results[0].Some? then results[0] else FirstError(results[1..])
    ensures Answered(groups, results, false) == (if results[0].Some? then [] else Claims(groups[0])) + Answered(groups[1..], results[1..], false)
    ensures Answered(groups, results, true) == (if results[0].Some? then Claims(groups[0]) else []) + Answered(groups[1..], results[1..], true)
  {
  }

  lemma FlightCons(flight: seq<seq<Group>>)
    requires flight != []
    ensures multiset(FlightClaims(flight)) == multiset(AllClaims(flight[0])) + multiset(FlightClaims(flight[1..]))
  {
  }

  lemma StopKeeps(q: State)
    requires Conserved(q)
    ensures Conserved(StoppedOf(q))
  {
    assert AllClaims([]) == [];
    hide AllClaims, FlightClaims;
  }

  // ---- flushing ----

  ghost predicate IsRun(states: seq<State>, events: seq<Event>) {
    && |states| == |events| + 1
    && forall k | 0 <= k < |events| :: Enabled(states[k], events[k]) && states[k + 1] == Happen(states[k], events[k])
  }

  ghost function Settles(events: seq<Event>): nat {
    if events == [] then 0 else Settles(events[..|events| - 1]) + (if events[|events| - 1].Settle? then 1 else 0)
  }

  /** After `n` settlements: the first `n` batches were handed over, later ones may have joined the chain. */
  ghost predicate Advanced(a: State, b: State, n: nat) {
    && Handed(a) <= Handed(b) && multiset(a.dropped) <= multiset(b.dropped)
    && if n >= |a.flight| then Handed(a) + multiset(FlightClaims(a.flight)) <= Handed(b)
       else a.flight[n..] <= b.flight
            && Handed(a) + multiset(FlightClaims(a.flight[..n])) <= Handed(b)
  }

  /** Only a settlement shortens the chain; nothing takes back what was handed over or dropped. */
  lemma OtherEvent(q: State, e: Event)
    requires Enabled(q, e) && !e.Settle?
    ensures var r := Happen(q, e); Handed(r) == Handed(q) && multiset(q.dropped) <= multiset(r.dropped) && q.flight <= r.flight
  {
    hide AllClaims, Jobs, Kept, Dead, Added, HasPending;
  }

  lemma AdvanceOther(a: State, b: State, c: State, n: nat)
    requires Advanced(a, b, n) && Handed(c) == Handed(b) && multiset(b.dropped) <= multiset(c.dropped) && b.flight <= c.flight
    ensures Advanced(a, c, n)
  {
    hide FlightClaims;
  }

  lemma AdvanceSettle(a: State, b: State, results: seq<Option<nat>>, n: nat)
    requires Advanced(a, b, n) && Enabled(b, Settle(results))
    ensures Advanced(a, Happen(b, Settle(results)), n + 1)
  {
    hide FlightClaims, AllClaims, HasPending, FirstError, Answered;
    var c := Happen(b, Settle(results));
    assert c.flight == b.flight[1..] && c.dropped == b.dropped;
    SettledHands(b, results);
    hide Handed;
    if n < |a.flight| {
      assert a.flight[n..][0] == a.flight[n] && b.flight[0] == a.flight[n..][0];
      assert a.flight[..n + 1] == a.flight[..n] + [a.flight[n]];
      FlightConcat(a.flight[..n], [a.flight[n]]);
      OneFlight(a.flight[n]);
      assert a.flight[n + 1..] == a.flight[n..][1..];
      if n + 1 == |a.flight| { assert a.flight[..n + 1] == a.flight; }
    }
    hide Happen;
  }

  lemma {:induction false} RunAdvances(states: seq<State>, events: seq<Event>)
    requires IsRun(states, events)
    ensures Advanced(states[0], states[|events|], Settles(events))
    decreases |events|
  {
    if events == [] {
      assert FlightClaims(states[0].flight[..0]) == [];
      assert states[0].flight == [] ==> FlightClaims(states[0].flight) == [];
      assert states[0].flight[0..] == states[0].flight;
    } else {
      var n := |events| - 1;
      RunAdvances(states[..n + 1], events[..n]);
      hide Advanced, Happen;
      if events[n].Settle? {
        AdvanceSettle(states[0], states[n], events[n].results, Settles(events[..n]));
      } else {
        OtherEvent(states[n], events[n]);
        AdvanceOther(states[0], states[n], states[n + 1], Settles(events[..n]));
      }
    }
  }

  /** What a flush does not touch: the waiting claims of a queue that is closed already. */
  function Left(q: State): seq<Claim> { if Closed(q) then AllClaims(q.groups) else [] }

  /**
   * What a flush waits for: once as many batches have settled as were in flight after its drain, every claim accepted
   * before it was handed to its store or dropped because it was aborted, whatever was queued meanwhile. Claims that wait in
   * a closed queue are left.
   */
  lemma FlushHandsOver(q: State, dead: nat -> bool, states: seq<State>, events: seq<Event>)
    requires Inv(q) && IsRun(states, events) && states[0] == Happen(q, BeginFlush(dead))
    requires Settles(events) >= |states[0].flight|
    ensures var last := states[|events|];
            multiset(q.accepted) <= Handed(last) + multiset(last.dropped) + multiset(Left(q))
  {
    hide FlightClaims, Inv, Happen, IsRun, Settles, Handed, Conserved;
    RunSize(states, events);
    FlushStarts(q, dead);
    RunAdvances(states, events);
    WaitingFor(states[0]);
  }

  lemma FlushStarts(q: State, dead: nat -> bool)
    requires Inv(q)
    ensures var r := Happen(q, BeginFlush(dead)); Conserved(r) && AllClaims(r.groups) == Left(q) && r.accepted == q.accepted
  {
    SameClaims(q, q.(timer := false));
    hide Conserved, AllClaims, Jobs, Kept, Dead;
    DrainKeeps(q.(timer := false), dead);
  }

  lemma WaitingFor(q: State)
    requires Conserved(q)
    ensures multiset(q.accepted) == multiset(AllClaims(q.groups)) + multiset(FlightClaims(q.flight)) + Handed(q) + multiset(q.dropped)
  {
    hide AllClaims, FlightClaims, Handed;
  }

  /** The first error of the batches that settled during some events. */
  ghost function FirstFailure(events: seq<Event>): Option<nat> {
    if events == [] then None
    else
      var last, before := events[|events| - 1], FirstFailure(events[..|events| - 1]);
      if before.Some? || !last.Settle? then before else FirstError(last.results)
  }

  /** The point right after the last flush that ended, or the beginning. */
  ghost function LastEnd(events: seq<Event>): (n: nat)
    ensures n <= |events|
  {
    if events == [] then 0
    else if events[|events| - 1].EndFlush? then |events|
    else LastEnd(events[..|events| - 1])
  }

  lemma LastEndIs(events: seq<Event>, m: nat)
    requires m < |events| && events[m].EndFlush?
    ensures LastEnd(events) > m
    decreases |events|
  {
    if !events[|events| - 1].EndFlush? { LastEndIs(events[..|events| - 1], m); }
  }

  lemma LastEndEnds(events: seq<Event>)
    ensures LastEnd(events) > 0 ==> events[LastEnd(events) - 1].EndFlush?
  {
  }

  lemma SlotStep(q: State, e: Event)
    requires Solid(q) && Enabled(q, e)
    ensures var r := Happen(q, e);
            && r.failure == (if e.EndFlush? then None else if q.failure.Some? || !e.Settle? then q.failure else FirstError(e.results))
            && q.failed <= r.failed && (r.failed == q.failed <==> !e.Settle? || FirstError(e.results) == None)
  {
    hide FirstError, Jobs, Kept, Dead, Added, AllClaims, HasPending, Answered, Nonempty;
    if e.Settle? {
      assert q.flight[0] in q.flight;
      AnsweredSplit(q.flight[0], e.results);
    }
  }

  lemma {:induction false} RunKeeps(states: seq<State>, events: seq<Event>)
    requires IsRun(states, events) && Inv(states[0])
    ensures Inv(states[|events|])
    decreases |events|
  {
    if events != [] {
      var n := |events| - 1;
      RunKeeps(states[..n + 1], events[..n]);
      EventKeeps(states[n], events[n]);
      hide Inv, Happen;
    }
  }

  lemma LastEndStep(events: seq<Event>, e: Event)
    ensures LastEnd(events + [e]) == if e.EndFlush? then |events| + 1 else LastEnd(events)
    ensures e.EndFlush? ==> (events + [e])[|events| + 1..] == []
  {
    assert (events + [e])[..|events|] == events;
  }

  lemma FirstFailureStep(events: seq<Event>, since: nat, e: Event)
    requires since <= |events|
    ensures var before := FirstFailure(events[since..]);
            FirstFailure((events + [e])[since..]) == if before.Some? || !e.Settle? then before else FirstError(e.results)
  {
    var tail := (events + [e])[since..];
    assert tail[..|tail| - 1] == events[since..] && tail[|tail| - 1] == e;
    hide FirstError;
  }

  /**
   * In every run the failure slot holds the first error that settled since the last flush ended, so it is empty exactly
   * when no claim has failed since.
   */
  lemma {:induction false} FailureSlot(states: seq<State>, events: seq<Event>)
    requires IsRun(states, events) && Inv(states[0]) && states[0].failure == None
    ensures var since := LastEnd(events);
            && states[|events|].failure == FirstFailure(events[since..])
            && states[since].failed <= states[|events|].failed
            && (states[|events|].failure == None <==> states[|events|].failed == states[since].failed)
    decreases |events|
  {
    if events == [] {
      assert FirstFailure(events[0..]) == None;
    } else {
      var n := |events| - 1;
      var before, e := events[..n], events[n];
      assert events == before + [e];
      FailureSlot(states[..n + 1], before);
      RunKeeps(states[..n + 1], before);
      InvSolid(states[n]);
      SlotStep(states[n], e);
      LastEndStep(before, e);
      var since := LastEnd(before);
      FirstFailureStep(before, since, e);
      hide Inv, Happen, Solid, FirstError, FirstFailure, LastEnd;
      assert states[n + 1] == Happen(states[n], e);
      hide IsRun;
      Grows(states[since].failed, states[n].failed, states[n + 1].failed);
    }
  }

  lemma Grows(a: seq<Claim>, b: seq<Claim>, c: seq<Claim>)
    requires a <= b <= c
    ensures a <= c && (a == c <==> a == b && b == c)
  {
  }

  lemma InvSolid(q: State)
    requires Inv(q)
    ensures Solid(q)
  {
    hide Conserved, Awake, Solid;
  }

  lemma {:induction false} FailedGrows(states: seq<State>, events: seq<Event>, m: nat)
    requires IsRun(states, events) && Inv(states[0]) && m <= |events|
    ensures states[m].failed <= states[|events|].failed
    decreases |events|
  {
    if m < |events| {
      var n := |events| - 1;
      FailedGrows(states[..n + 1], events[..n], m);
      RunKeeps(states[..n + 1], events[..n]);
      hide Inv, Happen;
      InvSolid(states[n]);
      SlotStep(states[n], events[n]);
      Grows(states[m].failed, states[n].failed, states[n + 1].failed);
    }
  }

  /** Another flush ended here, after the last failure. */
  ghost predicate Took(states: seq<State>, events: seq<Event>, m: nat) {
    m < |events| < |states| && events[m].EndFlush? && states[m].failed == states[|events|].failed
  }

  /**
   * Exactly when a flush hides a failure. A flush that ends at some point of a run returns no error although a claim has
   * failed by then, if and only if an earlier flush ended after the last failure. If that claim had not failed yet
   * when the flush began, the earlier end lies between its own beginning and end: another flush took the error.
   */
  lemma FailureHidden(states: seq<State>, events: seq<Event>, begin: nat, x: Claim)
    requires IsRun(states, events) && Inv(states[0]) && states[0].failure == None && states[0].failed == []
    requires begin <= |events| && x in states[|events|].failed
    ensures states[|events|].failure == None <==> exists m: nat :: Took(states, events, m)
    ensures x !in states[begin].failed ==> forall m: nat | Took(states, events, m) :: begin < m
  {
    hide IsRun, Inv, Took;
    RunSize(states, events);
    if states[|events|].failure == None { TakenSince(states, events); }
    forall m: nat | Took(states, events, m)
      ensures states[|events|].failure == None && (x !in states[begin].failed ==> begin < m)
    {
      TakenLeaves(states, events, m);
      TakenAfter(states, events, begin, m);
    }
  }

  lemma RunSize(states: seq<State>, events: seq<Event>)
    requires IsRun(states, events)
    ensures |states| == |events| + 1
  {
  }

  lemma TakenSince(states: seq<State>, events: seq<Event>)
    requires IsRun(states, events) && Inv(states[0]) && states[0].failure == None && states[0].failed == []
    requires states[|events|].failure == None && states[|events|].failed != []
    ensures exists m: nat :: Took(states, events, m)
  {
    FailureSlot(states, events);
    LastEndEnds(events);
    var since := LastEnd(events);
    hide Inv, Happen, LastEnd;
    EndKeepsFailed(states, events, since - 1);
    assert Took(states, events, since - 1);
  }

  lemma TakenLeaves(states: seq<State>, events: seq<Event>, m: nat)
    requires IsRun(states, events) && Inv(states[0]) && states[0].failure == None && Took(states, events, m)
    ensures states[|events|].failure == None
  {
    FailureSlot(states, events);
    LastEndIs(events, m);
    var since := LastEnd(events);
    hide Inv, Happen, LastEnd;
    FailedGrows(states[..since + 1], events[..since], m);
  }

  lemma TakenAfter(states: seq<State>, events: seq<Event>, begin: nat, m: nat)
    requires IsRun(states, events) && Inv(states[0]) && begin <= |events| && Took(states, events, m)
    ensures m <= begin ==> states[begin].failed == states[|events|].failed
  {
    hide Inv, Happen;
    FailedGrows(states, events, begin);
    if m <= begin { FailedGrows(states[..begin + 1], events[..begin], m); }
  }

  lemma EndKeepsFailed(states: seq<State>, events: seq<Event>, m: nat)
    requires IsRun(states, events) && m < |events| && events[m].EndFlush?
    ensures states[m + 1].failed == states[m].failed
  {
  }

  /**
   * A flush that waited for its batches, with no other flush ending meanwhile, reports no error exactly when nothing was
   * in the slot before it and no claim failed meanwhile; then every claim accepted before it is committed, was known
   * to have failed, was dropped, or is left waiting in a queue that was closed.
   */
  lemma FlushReports(q: State, dead: nat -> bool, states: seq<State>, events: seq<Event>)
    requires Inv(q) && IsRun(states, events) && states[0] == Happen(q, BeginFlush(dead))
    requires Settles(events) >= |states[0].flight| && forall k | 0 <= k < |events| :: !events[k].EndFlush?
    ensures var last := states[|events|];
            && (last.failure == None <==> q.failure == None && last.failed == q.failed)
            && (last.failure == None ==>
                  multiset(q.accepted) <= multiset(last.committed) + multiset(q.failed) + multiset(last.dropped) + multiset(Left(q)))
  {
    FlushHandsOver(q, dead, states, events);
    BeginSlot(q, dead);
    EventKeeps(q, BeginFlush(dead));
    hide Inv, Happen;
    SlotKept(states, events);
  }

  lemma BeginSlot(q: State, dead: nat -> bool)
    ensures var r := Happen(q, BeginFlush(dead)); r.failure == q.failure && r.failed == q.failed
  {
    hide Jobs, Kept, Dead, AllClaims;
  }

  lemma {:induction false} SlotKept(states: seq<State>, events: seq<Event>)
    requires IsRun(states, events) && Inv(states[0]) && forall k | 0 <= k < |events| :: !events[k].EndFlush?
    ensures var last := states[|events|];
            && Inv(last) && states[0].failed <= last.failed
            && (last.failure == None <==> states[0].failure == None && last.failed == states[0].failed)
    decreases |events|
  {
    if events != [] {
      var n := |events| - 1;
      SlotKept(states[..n + 1], events[..n]);
      hide Inv, Happen;
      InvSolid(states[n]);
      SlotStep(states[n], events[n]);
      EventKeeps(states[n], events[n]);
      hide Solid, Enabled, FirstError;
      Grows(states[0].failed, states[n].failed, states[n + 1].failed);
    }
  }

  const NOBODY := (r: nat) => false

  function Empty(): State { State([], [], false, None, false, false, [], [], [], []) }

  /**
   * Two callers queue a claim each for one store and flush; the batch of both fails. The first flush to end gets the error,
   * and the second ends without one although its caller's claim failed too.
   */
  lemma FailureTakenByAnother(coverage: nat, first: nat, second: nat, error: nat) returns (states: seq<State>, events: seq<Event>)
    ensures events == [Queue(coverage, first, false), Queue(coverage, second, false), BeginFlush(NOBODY), BeginFlush(NOBODY),
                       Settle([Some(error)]), EndFlush, EndFlush]
    ensures IsRun(states, events) && states[0] == Empty()
    ensures states[4].flight == [[Group(coverage, [first, second])]]
    ensures states[5].failure == Some(error) && states[6].failure == None
    ensures Claim(coverage, second) in states[6].failed && Claim(coverage, second) !in states[3].failed
  {
    events := [Queue(coverage, first, false), Queue(coverage, second, false), BeginFlush(NOBODY), BeginFlush(NOBODY),
               Settle([Some(error)]), EndFlush, EndFlush];
    var both := Group(coverage, [first, second]);
    var a, b := Claim(coverage, first), Claim(coverage, second);
    var s0 := Empty();
    var s1 := s0.(groups := [Group(coverage, [first])], timer := true, accepted := [a]);
    var s2 := s1.(groups := [both], accepted := [a, b]);
    var s3 := s2.(groups := [both.(requests := [])], timer := false, flight := [[both]]);
    var s4 := s3.(groups := []);
    var s5 := s4.(flight := [], failure := Some(error), failed := [a, b]);
    var s6 := s5.(failure := None);
    states := [s0, s1, s2, s3, s4, s5, s6, s6];
    TwoQueued(coverage, first, second);
    TwoTaken(coverage, first, second);
    TwoRefused(both, error);
    hide Jobs, Kept, Dead, Answered, Added, Claims;
    assert s2.groups[0].requests != [] && s1.groups[0].requests != [];
    assert Happen(s0, events[0]) == s1;
    assert Happen(s1, events[1]) == s2;
    assert Happen(s2, events[2]) == s3;
    assert Happen(s3, events[3]) == s4;
    assert Happen(s4, events[4]) == s5;
    assert IsRun(states, events);
  }

  lemma TwoQueued(coverage: nat, first: nat, second: nat)
    ensures Added([], coverage, first) == [Group(coverage, [first])]
    ensures Added([Group(coverage, [first])], coverage, second) == [Group(coverage, [first, second])]
  {
    assert [first] + [second] == [first, second];
  }

  lemma TwoLiving(first: nat, second: nat, dead: nat -> bool)
    ensures !dead(first) && !dead(second) ==> Living([first, second], dead) == [first, second]
    ensures dead(first) && dead(second) ==> Living([first, second], dead) == []
    ensures Living([], dead) == []
  {
    assert [first, second][1..] == [second] && [second][1..] == [];
    assert Living([second], dead) == if dead(second) then [] else [second];
  }

  lemma TwoTaken(coverage: nat, first: nat, second: nat)
    ensures var both := Group(coverage, [first, second]);
            && Jobs([both], NOBODY) == [both] && Kept([both], NOBODY) == [both.(requests := [])] && Dead([both], NOBODY) == []
            && Jobs([both.(requests := [])], NOBODY) == [] && Kept([both.(requests := [])], NOBODY) == []
            && Dead([both.(requests := [])], NOBODY) == []
  {
    var both := Group(coverage, [first, second]);
    TwoLiving(first, second, NOBODY);
    TwoLiving(first, second, (r: nat) => !NOBODY(r));
    hide Living;
    TakeOne(both, [], NOBODY);
    TakeOne(both.(requests := []), [], NOBODY);
  }

  lemma TwoRefused(g: Group, error: nat)
    ensures Answered([g], [Some(error)], true) == Claims(g) && Answered([g], [Some(error)], false) == []
    ensures FirstError([Some(error)]) == Some(error)
  {
    assert [g][1..] == [];
  }

  // ---- the object ----

  class CheckpointQueue {
    var groups: seq<Group>
    var flight: seq<seq<Group>>
    var timer: bool
    var failure: Option<nat>
    var stopped: bool
    var aborted: bool
    ghost var accepted: seq<Claim>
    ghost var committed: seq<Claim>
    ghost var failed: seq<Claim>
    ghost var dropped: seq<Claim>

    ghost function Value(): State
      reads this
    {
      State(groups, flight, timer, failure, stopped, aborted, accepted, committed, failed, dropped)
    }

    constructor ()
      ensures Inv(Value()) && Value() == Empty()
    {
      groups, flight, timer, failure, stopped, aborted := [], [], false, None, false, false;
      accepted, committed, failed, dropped := [], [], [], [];
    }

    /** Empties every group, leaving out aborted requests, and forgets groups that had nothing alive. */
    method Take(dead: nat -> bool) returns (jobs: seq<Group>)
      modifies this
      ensures jobs == Jobs(old(groups), dead)
      ensures Value() == old(Value()).(groups := Kept(old(groups), dead), dropped := old(dropped) + Dead(old(groups), dead))
    {
      hide Living, Dead, Jobs, Kept;
      var kept: seq<Group> := [];
      jobs := [];
      assert groups[0..] == groups;
      var k := 0;
      while k < |groups|
        invariant 0 <= k <= |groups| && Value() == old(Value())
        invariant kept + Kept(groups[k..], dead) == Kept(groups, dead)
        invariant jobs + Jobs(groups[k..], dead) == Jobs(groups, dead)
      {
        var requests := Living(groups[k].requests, dead);
        ghost var rest := groups[k + 1..];
        assert groups[k..] == [groups[k]] + rest;
        TakeOne(groups[k], rest, dead);
        Associates(kept, [groups[k].(requests := [])], Kept(rest, dead));
        Associates(jobs, [groups[k].(requests := requests)], Jobs(rest, dead));
        if requests != [] {
          kept := kept + [groups[k].(requests := [])];
          jobs := jobs + [groups[k].(requests := requests)];
        }
        k := k + 1;
      }
      NothingLeft(groups[k..], dead);
      assert jobs + [] == jobs && kept + [] == kept;
      dropped := dropped + Dead(groups, dead);
      groups := kept;
    }

    method Schedule()
      modifies this`timer
      ensures Value() == Scheduled(old(Value()))
    {
      if stopped || aborted || timer || !HasPending(groups) { return; }
      timer := true;
    }

    method Drain(dead: nat -> bool)
      modifies this
      ensures Value() == Drained(old(Value()), dead)
    {
      if stopped || aborted {
        dropped := dropped + AllClaims(groups);
        groups := [];
        return;
      }
      var jobs := Take(dead);
      if jobs == [] { return; }
      flight := flight + [jobs];
    }

    method Enqueue(coverage: nat, request: nat, gone: bool)
      modifies this
      ensures Value() == Happen(old(Value()), Queue(coverage, request, gone))
    {
      if stopped || aborted || gone { return; }
      groups := Added(groups, coverage, request);
      accepted := accepted + [Claim(coverage, request)];
      Schedule();
    }

    method OnTimer(dead: nat -> bool)
      requires timer
      modifies this
      ensures Value() == Happen(old(Value()), TimerFires(dead))
    {
      timer := false;
      Drain(dead);
    }

    /** The oldest batch of the chain settled; only the first error since the last flush is kept. */
    method OnSettled(results: seq<Option<nat>>)
      requires flight != [] && |results| == |flight[0]|
      modifies this
      ensures Value() == Happen(old(Value()), Settle(results))
    {
      committed := committed + Answered(flight[0], results, false);
      failed := failed + Answered(flight[0], results, true);
      flight := flight[1..];
      if failure.None? { failure := FirstError(results); }
      Schedule();
    }

    method StartFlush(dead: nat -> bool)
      modifies this
      ensures Value() == Happen(old(Value()), BeginFlush(dead))
    {
      timer := false;
      if stopped || aborted { return; }
      Drain(dead);
    }

    method FinishFlush() returns (error: Option<nat>)
      modifies this
      ensures Value() == Happen(old(Value()), EndFlush) && error == old(failure)
    {
      error := failure;
      failure := None;
    }

    method StopQueue()
      modifies this
      ensures Value() == Happen(old(Value()), Stop)
    {
      stopped := true;
      timer := false;
      dropped := dropped + AllClaims(groups);
      groups := [];
    }
  }
}
