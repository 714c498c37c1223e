/** What the checkpoint queue accepts, hands out, drops and keeps of errors, written out; and that a stopped queue is quiet. */
module CheckpointLaws {
  import opened Basics
  import opened Checkpoints

  /** The first error is the one before which every store answered well. */
  lemma {:induction false} FirstErrorIs(results: seq<Option<nat>>)
    ensures FirstError(results) == None <==> forall i | 0 <= i < |results| :: results[i] == None
    ensures FirstError(results) != None ==>
              exists i | 0 <= i < |results| :: results[i] == FirstError(results) && forall j | 0 <= j < i :: results[j] == None
  {
    if results != [] && results[0].None? {
      var rest := results[1..];
      FirstErrorIs(rest);
      assert forall i | 0 <= i < |rest| :: rest[i] == results[i + 1];
      if FirstError(results) != None {
        var i :| 0 <= i < |rest| && rest[i] == FirstError(rest) && forall j | 0 <= j < i :: rest[j] == None;
        assert results[i + 1] == FirstError(results);
        forall j | 0 <= j < i + 1 ensures results[j] == None { if j > 0 { assert results[j] == rest[j - 1]; } }
      }
    } else if results != [] {
      assert results[0] == FirstError(results);
    }
  }

  /** A take keeps the requests that are not aborted, as often as they wait. */
  lemma {:induction false} LivingIs(requests: seq<nat>, dead: nat -> bool, r: nat)
    ensures r in Living(requests, dead) <==> r in requests && !dead(r)
    ensures multiset(Living(requests, dead))[r] == if dead(r) then 0 else multiset(requests)[r]
  {
    if requests != [] {
      var x, rest := requests[0], requests[1..];
      LivingIs(rest, dead, r);
      assert requests == [x] + rest;
      LivingOne(x, rest, dead);
      hide Living;
    }
  }

  lemma {:induction false} JobsHave(groups: seq<Group>, dead: nat -> bool, x: Claim)
    ensures x in AllClaims(Jobs(groups, dead)) <==> x in AllClaims(groups) && !dead(x.request)
    ensures x in Dead(groups, dead) <==> x in AllClaims(groups) && dead(x.request)
  {
    if groups != [] {
      var g, rest := groups[0], groups[1..];
      JobsHave(rest, dead, x);
      LivingIs(g.requests, dead, x.request);
      LivingIs(g.requests, (r: nat) => !dead(r), x.request);
      assert groups == [g] + rest;
      TakeOne(g, rest, dead);
      var living := g.(requests := Living(g.requests, dead));
      var gone := g.(requests := Living(g.requests, (r: nat) => !dead(r)));
      hide Living, AllClaims, Jobs, Dead, Kept;
      ClaimsHave(g, x);
      ClaimsHave(living, x);
      ClaimsHave(gone, x);
      AllClaimsCons(g, rest);
      AllClaimsCons(living, Jobs(rest, dead));
    }
  }

  lemma ClaimsHave(g: Group, x: Claim)
    ensures x in Claims(g) <==> x.coverage == g.coverage && x.request in g.requests
  {
    if x.coverage == g.coverage && x.request in g.requests {
      var i :| 0 <= i < |g.requests| && g.requests[i] == x.request;
      assert Claims(g)[i] == x;
    }
  }

  /**
   * A drain of an open queue hands out, as one batch behind those in flight, exactly the waiting claims that are not
   * aborted, and drops exactly the others; if none is left, there is no batch.
   */
  lemma DrainIs(q: State, dead: nat -> bool)
    requires !q.stopped && !q.aborted
    ensures var r := Drained(q, dead);
            && |q.flight| <= |r.flight| <= |q.flight| + 1 && q.flight == r.flight[..|q.flight|]
            && (|r.flight| == |q.flight| + 1 ==> forall x :: x in AllClaims(r.flight[|q.flight|]) <==> x in AllClaims(q.groups) && !dead(x.request))
            && (|r.flight| == |q.flight| <==> forall x | x in AllClaims(q.groups) :: dead(x.request))
            && |q.dropped| <= |r.dropped| && r.dropped[..|q.dropped|] == q.dropped
            && (forall x :: x in r.dropped[|q.dropped|..] <==> x in AllClaims(q.groups) && dead(x.request))
            && AllClaims(r.groups) == []
  {
    TakeSplits(q.groups, dead);
    JobsNonempty(q.groups, dead);
    forall x
      ensures x in AllClaims(Jobs(q.groups, dead)) <==> x in AllClaims(q.groups) && !dead(x.request)
      ensures x in Dead(q.groups, dead) <==> x in AllClaims(q.groups) && dead(x.request)
    {
      JobsHave(q.groups, dead, x);
    }
    SomeClaim(Jobs(q.groups, dead));
    hide Jobs, Dead, Kept, AllClaims, Nonempty;
    var r := Drained(q, dead);
    assert r.dropped[|q.dropped|..] == Dead(q.groups, dead);
  }

  lemma SomeClaim(jobs: seq<Group>)
    requires Nonempty(jobs)
    ensures jobs != [] ==> exists x :: x in AllClaims(jobs)
    ensures jobs == [] ==> AllClaims(jobs) == []
  {
    if jobs != [] {
      var g := jobs[0];
      assert g in jobs;
      var x := Claims(g)[0];
      assert x in Claims(g);
      assert x in AllClaims(jobs);
    }
  }

  /** A claim is accepted, and waits, unless the queue is stopped or aborted or the claim is aborted already. */
  lemma QueueIs(q: State, coverage: nat, request: nat, gone: bool)
    ensures var r := Queued(q, coverage, request, gone);
            if q.stopped || q.aborted || gone then r == q
            else
              && r.accepted == q.accepted + [Claim(coverage, request)] && r.timer
              && multiset(AllClaims(r.groups)) == multiset(AllClaims(q.groups)) + multiset{Claim(coverage, request)}
              && r.flight == q.flight && r.dropped == q.dropped && r.committed == q.committed && r.failed == q.failed && r.failure == q.failure
  {
    AddedClaims(q.groups, coverage, request);
    hide Added, AllClaims, HasPending;
  }

  /** A settled batch leaves the chain; its claims are committed or failed as their stores answered; the first error ever since is kept. */
  lemma SettleIs(q: State, results: seq<Option<nat>>, x: Claim)
    requires q.flight != [] && |results| == |q.flight[0]|
    ensures var r := Settled(q, results);
            && r.flight == q.flight[1..] && q.committed <= r.committed && q.failed <= r.failed
            && (x in r.committed[|q.committed|..] <==>
                  exists i | 0 <= i < |results| :: results[i] == None && x in Claims(q.flight[0][i]))
            && (x in r.failed[|q.failed|..] <==>
                  exists i | 0 <= i < |results| :: results[i] != None && x in Claims(q.flight[0][i]))
            && (q.failure != None ==> r.failure == q.failure)
            && (q.failure == None ==> (r.failure == None <==> forall i | 0 <= i < |results| :: results[i] == None))
            && (q.failure == None && r.failure != None ==>
                  exists i | 0 <= i < |results| :: results[i] == r.failure && forall j | 0 <= j < i :: results[j] == None)
  {
    FirstErrorIs(results);
    AnsweredIs(q.flight[0], results, false, x);
    AnsweredIs(q.flight[0], results, true, x);
    hide FirstError, Answered, Claims, HasPending;
    var r := Settled(q, results);
    assert r.committed[|q.committed|..] == Answered(q.flight[0], results, false);
    assert r.failed[|q.failed|..] == Answered(q.flight[0], results, true);
  }

  lemma {:induction false} AnsweredIs(groups: seq<Group>, results: seq<Option<nat>>, failed: bool, x: Claim)
    requires |groups| == |results|
    ensures x in Answered(groups, results, failed) <==> exists i | 0 <= i < |results| :: (results[i] != None) == failed && x in Claims(groups[i])
  {
    hide Claims;
    if groups != [] {
      AnsweredIs(groups[1..], results[1..], failed, x);
      if i :| 0 <= i < |results| && (results[i] != None) == failed && x in Claims(groups[i]) {
        if i > 0 { assert results[1..][i - 1] == results[i] && groups[1..][i - 1] == groups[i]; }
      }
      if i :| 0 <= i < |results[1..]| && (results[1..][i] != None) == failed && x in Claims(groups[1..][i]) {
        assert results[i + 1] == results[1..][i] && groups[i + 1] == groups[1..][i];
      }
    }
  }

  /** An aborted queue accepts nothing more, whatever comes, and starts no batch. */
  lemma AbortedStays(q: State, e: Event)
    requires Enabled(q, e)
    ensures Happen(q, Abort).aborted
    ensures q.aborted ==> var r := Happen(q, e); r.aborted && r.accepted == q.accepted && |r.flight| <= |q.flight|
  {
    hide AllClaims, Jobs, Kept, Dead, Added, FirstError, Answered;
  }

  // ---- a stopped queue ----

  ghost predicate Quiet(q: State) { q.stopped ==> !q.timer && q.groups == [] }

  lemma StopIs(q: State)
    ensures var r := StoppedOf(q); r.stopped && Quiet(r) && r.flight == q.flight && r.dropped == q.dropped + AllClaims(q.groups)
  {
  }

  lemma EventQuiet(q: State, e: Event)
    requires Quiet(q) && Enabled(q, e)
    ensures Quiet(Happen(q, e)) && (q.stopped ==> Happen(q, e).stopped && Happen(q, e).accepted == q.accepted)
  {
    hide AllClaims, Jobs, Kept, Dead, Added, FirstError, Answered;
  }

  /** Over every run: once stopped, the queue accepts nothing, has no timer and nothing waiting. */
  lemma {:induction false} RunQuiet(states: seq<State>, events: seq<Event>, m: nat, n: nat)
    requires IsRun(states, events) && Quiet(states[0]) && m <= n < |states|
    ensures Quiet(states[n]) && (states[m].stopped ==> states[n].stopped && states[n].accepted == states[m].accepted)
    decreases n
  {
    hide Happen, Enabled, Quiet;
    if n > 0 {
      RunQuiet(states, events, if m < n then m else n - 1, n - 1);
      EventQuiet(states[n - 1], events[n - 1]);
      assert states[n - 1 + 1] == Happen(states[n - 1], events[n - 1]);
    }
  }
}
