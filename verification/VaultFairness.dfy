/** Fairness of the vault queue over whole runs: every dispatch of the history is traced back to the round that chose it. */
module VaultFairness {
  import opened Basics
  import opened VaultQueue

  /** A later state of the queue: the history has grown, and no job has changed its class. */
  ghost predicate Later(q: State, r: State) {
    && q.dispatched <= r.dispatched
    && forall id | id in q.jobs :: id in r.jobs && r.jobs[id].class_ == q.jobs[id].class_
  }

  lemma LaterStill(q: State, r: State, s: State)
    requires Later(q, r) && Later(r, s)
    ensures Later(q, s)
  {
  }

  lemma SettleLater(q: State, id: nat, outcome: Outcome)
    ensures Later(q, Settle(q, id, outcome)) && Settle(q, id, outcome).dispatched == q.dispatched
  {
  }

  lemma StartLater(q: State, id: nat)
    ensures Later(q, Start(q, id)) && Start(q, id).dispatched == q.dispatched + [id]
  {
  }

  lemma ServeLater(q: State, id: nat, now: int, verdict: Verdict)
    ensures var r := Serve(q, id, now, verdict);
            Later(q, r) && (r.dispatched == q.dispatched || r.dispatched == q.dispatched + [id])
  {
    SettleLater(q, id, TimedOut);
    StartLater(q, id);
    SettleLater(Start(q, id), id, Early);
    SettleLater(Start(q, id), id, Failed);
    hide Settle, Start;
  }

  /** The states in which the rounds of a drain loop choose their jobs. */
  ghost function Rounds(q: State, w: World, n: nat): seq<State>
    requires Sound(q)
    decreases Waiting(q)
  {
    if !CanServe(q) then []
    else
      ServeKeeps(q, w.clock(n), w.verdict(Pick(q).value));
      [q] + Rounds(Serve(q, Pick(q).value, w.clock(n), w.verdict(Pick(q).value)), w, n + 1)
  }

  /** A round in state `r` chose the dispatch number `d` of a later state. */
  ghost predicate Chose(r: State, q: State, d: nat) {
    && Sound(r) && CanServe(r) && Later(r, q)
    && d < |q.dispatched| && r.dispatched == q.dispatched[..d] && Pick(r).value == q.dispatched[d]
  }

  lemma ChoseStill(r: State, q: State, s: State, d: nat)
    requires Chose(r, q, d) && Later(q, s)
    ensures Chose(r, s, d)
  {
    hide Sound, CanServe, Pick;
    LaterStill(r, q, s);
  }

  lemma {:induction false} LoopLater(q: State, w: World, n: nat)
    requires Sound(q)
    ensures Later(q, Loop(q, w, n))
    decreases Waiting(q)
  {
    hide Sound, Serve, Pick, Later;
    if CanServe(q) {
      var next := Serve(q, Pick(q).value, w.clock(n), w.verdict(Pick(q).value));
      ServeKeeps(q, w.clock(n), w.verdict(Pick(q).value));
      ServeLater(q, Pick(q).value, w.clock(n), w.verdict(Pick(q).value));
      LoopLater(next, w, n + 1);
      LaterStill(q, next, Loop(next, w, n + 1));
    } else {
      assert Loop(q, w, n) == q;
      LaterSame(q);
    }
  }

  lemma LaterSame(q: State)
    ensures Later(q, q)
  {
  }

  /** Each job that a loop dispatched was chosen by one of its rounds. */
  lemma {:induction false} LoopRounds(q: State, w: World, n: nat, d: nat) returns (i: nat)
    requires Sound(q) && |q.dispatched| <= d < |Loop(q, w, n).dispatched|
    ensures i < |Rounds(q, w, n)| && Chose(Rounds(q, w, n)[i], Loop(q, w, n), d)
    decreases Waiting(q)
  {
    hide Sound, Serve, Pick;
    assert CanServe(q);
    var id := Pick(q).value;
    var next := Serve(q, id, w.clock(n), w.verdict(id));
    ServeKeeps(q, w.clock(n), w.verdict(id));
    ServeLater(q, id, w.clock(n), w.verdict(id));
    LoopLater(next, w, n + 1);
    LoopLater(q, w, n);
    if d < |next.dispatched| {
      i := 0;
    } else {
      i := LoopRounds(next, w, n + 1, d);
      i := i + 1;
    }
  }

  /** The state in which an operation drains the queue, if it does. */
  ghost function Drained(q: State, e: Event, id: nat): Option<State>
    requires Sound(q) && NewId(q, id)
  {
    match e
    case Ask(c, deadline) => if q.closed then None else Some(Enqueue(q, id, c, deadline))
    case Reply(job, outcome) => if job !in q.jobs || q.jobs[job].done then None else Some(Settle(q, job, outcome))
    case TimerFires(job) => if job !in q.jobs || q.jobs[job].done then None else Some(Settle(q, job, TimedOut))
    case SetPort(next) =>
      if next == q.port || q.closed then None else Some((if q.port.Some? then CancelOf(q, Canceled) else q).(port := next))
    case Cancel => None
    case Close => None
  }

  lemma {:induction false} SettleAllLater(q: State, ids: seq<nat>, outcome: Outcome)
    ensures Later(q, SettleAll(q, ids, outcome)) && SettleAll(q, ids, outcome).dispatched == q.dispatched
    decreases |ids|
  {
    hide Settle;
    if ids != [] {
      SettleLater(q, ids[0], outcome);
      SettleAllLater(Settle(q, ids[0], outcome), ids[1..], outcome);
    }
  }

  lemma CancelLater(q: State, outcome: Outcome)
    ensures Later(q, CancelOf(q, outcome)) && CancelOf(q, outcome).dispatched == q.dispatched
  {
    SettleAllLater(q.(port := None), q.running + q.normal + q.priority, outcome);
    hide SettleAll;
  }

  lemma EnqueueLater(q: State, id: nat, c: Class, deadline: Option<int>)
    requires NewId(q, id)
    ensures Later(q, Enqueue(q, id, c, deadline)) && Enqueue(q, id, c, deadline).dispatched == q.dispatched
  {
  }

  /** An operation dispatches nothing before its drain, nothing after it, and nothing without one. */
  lemma DrainedIs(q: State, e: Event, id: nat, w: World)
    requires Sound(q) && NewId(q, id)
    ensures match Drained(q, e, id)
            case None => Later(q, ApplyEvent(q, e, id, w)) && ApplyEvent(q, e, id, w).dispatched == q.dispatched
            case Some(from) => Sound(from) && ApplyEvent(q, e, id, w) == DrainOf(from, w) && Later(q, from) && from.dispatched == q.dispatched
  {
    hide Sound, Settle, Enqueue, CancelOf, DrainOf, Later, NewId;
    LaterSame(q);
    match e {
      case Ask(c, deadline) => {
        if !q.closed {
          EnqueueKeeps(q, id, c, deadline);
          EnqueueLater(q, id, c, deadline);
        }
      }
      case Reply(job, outcome) => { FinishDrained(q, job, outcome); }
      case TimerFires(job) => { FinishDrained(q, job, TimedOut); }
      case SetPort(next) => { PortDrained(q, next); }
      case Cancel => { CancelLater(q, Canceled); }
      case Close => { CloseLater(q); }
    }
  }

  lemma FinishDrained(q: State, job: nat, outcome: Outcome)
    requires Sound(q)
    ensures job in q.jobs && !q.jobs[job].done ==> Sound(Settle(q, job, outcome))
    ensures Later(q, Settle(q, job, outcome)) && Settle(q, job, outcome).dispatched == q.dispatched
  {
    hide Sound, Settle;
    SettleLater(q, job, outcome);
    if job in q.jobs && !q.jobs[job].done { SettleKeeps(q, job, outcome); }
  }

  lemma PortDrained(q: State, next: Option<nat>)
    requires Sound(q)
    ensures var from := (if q.port.Some? then CancelOf(q, Canceled) else q).(port := next);
            Sound(from) && Later(q, from) && from.dispatched == q.dispatched
  {
    hide Sound, CancelOf;
    CancelKeeps(q, Canceled);
    CancelLater(q, Canceled);
    SoundIgnoresPort(q, next);
    SoundIgnoresPort(CancelOf(q, Canceled), next);
  }

  lemma SoundIgnoresPort(q: State, next: Option<nat>)
    requires Sound(q)
    ensures Sound(q.(port := next))
  {
    hide Sound;
    SoundIgnoresShell(q, next, q.closed, q.draining);
  }

  lemma CloseLater(q: State)
    ensures Later(q, CloseOf(q)) && CloseOf(q).dispatched == q.dispatched
  {
    CancelLater(q.(closed := true), QueueClosed);
    hide CancelOf;
  }

  /** The rounds of one operation. */
  ghost function EventRounds(q: State, e: Event, id: nat, w: World): seq<State>
    requires Sound(q) && NewId(q, id)
  {
    DrainedIs(q, e, id, w);
    var drained := Drained(q, e, id);
    if drained.None? || drained.value.draining || drained.value.closed || drained.value.port.None? then []
    else
      SoundIgnoresShell(drained.value, None, false, true);
      Rounds(drained.value.(draining := true), w, 0)
  }

  /** Each job that an operation dispatched was chosen by one of its rounds. */
  lemma EventChose(q: State, e: Event, id: nat, w: World, d: nat) returns (i: nat)
    requires Sound(q) && NewId(q, id) && |q.dispatched| <= d < |ApplyEvent(q, e, id, w).dispatched|
    ensures i < |EventRounds(q, e, id, w)| && Chose(EventRounds(q, e, id, w)[i], ApplyEvent(q, e, id, w), d)
  {
    DrainedIs(q, e, id, w);
    hide Sound, ApplyEvent, Drained, Loop, Rounds, Chose, NewId, Later;
    var from := Drained(q, e, id).value;
    var started := from.(draining := true);
    SoundIgnoresShell(from, None, false, true);
    i := LoopRounds(started, w, 0, d);
    ChoseStops(Rounds(started, w, 0)[i], Loop(started, w, 0), d);
  }

  lemma ChoseStops(r: State, q: State, d: nat)
    requires Chose(r, q, d)
    ensures Chose(r, q.(draining := false), d)
  {
    hide Sound, CanServe, Pick;
  }

  lemma EventLater(q: State, e: Event, id: nat, w: World)
    requires Sound(q) && NewId(q, id)
    ensures Later(q, ApplyEvent(q, e, id, w))
  {
    DrainedIs(q, e, id, w);
    hide Sound, ApplyEvent, Loop, NewId;
    var drained := Drained(q, e, id);
    hide Drained;
    if drained.Some? {
      var started := drained.value.(draining := true);
      SoundIgnoresShell(drained.value, None, false, true);
      LoopLater(started, w, 0);
    }
  }

  /** The round that chose a dispatch of the history: in which step of the run, and which round of it. */
  lemma {:induction false} RunChose(states: seq<State>, events: seq<Event>, worlds: seq<World>, n: nat, d: nat) returns (k: nat, i: nat)
    requires IsRun(states, events, worlds) && n < |states| && d < |states[n].dispatched|
    ensures k < n && Sound(states[k]) && NewId(states[k], k)
    ensures i < |EventRounds(states[k], events[k], k, worlds[k])|
    ensures Chose(EventRounds(states[k], events[k], k, worlds[k])[i], states[n], d)
  {
    hide Sound, ApplyEvent, EventRounds, Chose, NewId;
    assert n > 0;
    RunSound(states, events, worlds, n - 1);
    var q := states[n - 1];
    assert states[n] == ApplyEvent(q, events[n - 1], n - 1, worlds[n - 1]);
    hide IsRun;
    if d < |q.dispatched| {
      k, i := RunChose(states, events, worlds, n - 1, d);
      EventLater(q, events[n - 1], n - 1, worlds[n - 1]);
      ChoseStill(EventRounds(states[k], events[k], k, worlds[k])[i], q, states[n], d);
    } else {
      k := n - 1;
      i := EventChose(q, events[k], k, worlds[k], d);
    }
  }

  lemma ThreeInARow(r: State, q: State, d: nat)
    requires Chose(r, q, d) && d >= MAX_PREFERRED
    requires forall x | d - MAX_PREFERRED <= x <= d :: ClassOf(q.jobs, q.dispatched[x]).priority
    ensures PriorityRun(r.jobs, r.dispatched) >= MAX_PREFERRED && ClassOf(r.jobs, Pick(r).value).priority
  {
    PickIsDispatchable(r);
    forall x | d - MAX_PREFERRED <= x < d ensures ClassOf(r.jobs, r.dispatched[x]).priority {
      assert r.dispatched[x] == q.dispatched[x];
      DispatchedKnown(r, x);
    }
    WaitingIsUnfinished(r, Pick(r).value);
    hide Sound, CanServe, Pick, Dispatchable;
    RunOfThree(r.jobs, r.dispatched);
  }

  lemma DispatchedKnown(r: State, x: nat)
    requires Sound(r) && x < |r.dispatched|
    ensures r.dispatched[x] in r.jobs
  {
  }

  lemma RunOfThree(jobs: map<nat, Job>, dispatched: seq<nat>)
    requires |dispatched| >= MAX_PREFERRED
    requires forall x | |dispatched| - MAX_PREFERRED <= x < |dispatched| :: ClassOf(jobs, dispatched[x]).priority
    ensures PriorityRun(jobs, dispatched) >= MAX_PREFERRED
  {
    hide ClassOf;
    var n := |dispatched|;
    var one := dispatched[..n - 1];
    var two := one[..n - 2];
    assert one[n - 2] == dispatched[n - 2] && two[n - 3] == dispatched[n - 3];
    assert PriorityRun(jobs, two) >= 1;
    assert PriorityRun(jobs, one) >= 2;
  }

  lemma NotPassedOver(r: State, id: nat)
    requires Sound(r) && Pick(r).Some? && ClassOf(r.jobs, Pick(r).value).priority
    requires PriorityRun(r.jobs, r.dispatched) >= MAX_PREFERRED && id in r.normal
    ensures !Dispatchable(r, id)
  {
    NormalIsNotPriority(r, Pick(r).value);
    hide Sound, Pick;
    if Dispatchable(r, id) { NormalIsNotStarved(r, id); }
  }

  lemma NormalIsNotPriority(r: State, id: nat)
    requires Sound(r)
    ensures id in r.normal ==> !ClassOf(r.jobs, id).priority
  {
  }

  /**
   * No starvation, over every run: when the dispatch history has four priority jobs in a row, no normal job that
   * waited when the fourth was chosen could have been dispatched then.
   */
  lemma FourInARow(states: seq<State>, events: seq<Event>, worlds: seq<World>, n: nat, d: nat) returns (k: nat, i: nat)
    requires IsRun(states, events, worlds) && n < |states| && 3 <= d < |states[n].dispatched|
    requires forall x | d - 3 <= x <= d :: ClassOf(states[n].jobs, states[n].dispatched[x]).priority
    ensures k < n && Sound(states[k]) && NewId(states[k], k)
    ensures i < |EventRounds(states[k], events[k], k, worlds[k])|
    ensures var r := EventRounds(states[k], events[k], k, worlds[k])[i];
            Chose(r, states[n], d) && forall id | id in r.normal :: !Dispatchable(r, id)
  {
    k, i := RunChose(states, events, worlds, n, d);
    hide IsRun, EventRounds, NewId, Dispatchable, ClassOf;
    var r := EventRounds(states[k], events[k], k, worlds[k])[i];
    ThreeInARow(r, states[n], d);
    hide Sound, PriorityRun, Pick;
    forall id | id in r.normal ensures !Dispatchable(r, id) { NotPassedOver(r, id); }
  }

  lemma {:induction false} RunIsThree(jobs: map<nat, Job>, dispatched: seq<nat>)
    requires PriorityRun(jobs, dispatched) >= MAX_PREFERRED
    ensures |dispatched| >= MAX_PREFERRED
    ensures forall x | |dispatched| - MAX_PREFERRED <= x < |dispatched| :: ClassOf(jobs, dispatched[x]).priority
  {
    hide ClassOf;
    var n := |dispatched|;
    var one := dispatched[..n - 1];
    var two := one[..n - 2];
    assert PriorityRun(jobs, one) >= 2;
    assert PriorityRun(jobs, two) >= 1;
    assert one[n - 2] == dispatched[n - 2] && two[n - 3] == dispatched[n - 3];
  }

  lemma PassedOver(r: State, id: nat)
    requires Sound(r) && Pick(r).Some? && !ClassOf(r.jobs, Pick(r).value).priority
    requires id in r.priority && Dispatchable(r, id)
    ensures PriorityRun(r.jobs, r.dispatched) >= MAX_PREFERRED
  {
    PriorityIsPriority(r, Pick(r).value);
    hide Sound, Pick, PriorityRun;
    if PriorityRun(r.jobs, r.dispatched) < MAX_PREFERRED { PriorityFirst(r, id); }
  }

  lemma PriorityIsPriority(r: State, id: nat)
    requires Sound(r)
    ensures id in r.priority ==> ClassOf(r.jobs, id).priority
  {
  }

  /**
   * Priority, over every run: a normal job that was dispatched while a priority job waited that could have been
   * dispatched comes right after three priority jobs.
   */
  lemma NormalAfterThree(states: seq<State>, events: seq<Event>, worlds: seq<World>, n: nat, d: nat) returns (k: nat, i: nat)
    requires IsRun(states, events, worlds) && n < |states| && d < |states[n].dispatched|
    requires !ClassOf(states[n].jobs, states[n].dispatched[d]).priority
    ensures k < n && Sound(states[k]) && NewId(states[k], k)
    ensures i < |EventRounds(states[k], events[k], k, worlds[k])|
    ensures var r := EventRounds(states[k], events[k], k, worlds[k])[i];
            && Chose(r, states[n], d)
            && ((exists id :: id in r.priority && Dispatchable(r, id)) ==>
                  d >= 3 && forall x | d - 3 <= x < d :: ClassOf(states[n].jobs, states[n].dispatched[x]).priority)
  {
    k, i := RunChose(states, events, worlds, n, d);
    hide IsRun, EventRounds, NewId, Dispatchable;
    var r := EventRounds(states[k], events[k], k, worlds[k])[i];
    ChosenClass(r, states[n], d);
    if id :| id in r.priority && Dispatchable(r, id) {
      hide Sound, Pick, PriorityRun, CanServe;
      CanPick(r);
      PassedOver(r, id);
      RunIsThree(r.jobs, r.dispatched);
      forall x | d - MAX_PREFERRED <= x < d ensures ClassOf(states[n].jobs, states[n].dispatched[x]).priority {
        assert r.dispatched[x] == states[n].dispatched[x];
        DispatchedKnown(r, x);
      }
    }
  }

  lemma CanPick(r: State)
    requires CanServe(r)
    ensures Pick(r).Some?
  {
  }

  lemma ChosenClass(r: State, q: State, d: nat)
    requires Chose(r, q, d)
    ensures Pick(r).Some? && ClassOf(r.jobs, Pick(r).value) == ClassOf(q.jobs, q.dispatched[d])
  {
    PickIsDispatchable(r);
    WaitingIsUnfinished(r, Pick(r).value);
    hide Sound, Pick, Dispatchable;
  }
}
