/** The scheduler object: its fields are updated in place by re-entrant calls. */
module VaultScheduler {
  import opened Basics
  import opened VaultQueue

  class Queue {
    var normal: seq<nat>
    var priority: seq<nat>
    var running: seq<nat>
    var jobs: map<nat, Job>
    var port: Option<nat>
    var closed: bool
    var draining: bool
    var preferred: nat
    var settled: seq<(nat, Outcome)>
    var dispatched: seq<nat>

    function Contents(): State
      reads this
    {
      State(normal, priority, running, jobs, port, closed, draining, preferred, settled, dispatched)
    }

    constructor ()
      ensures Empty(Contents())
    {
      normal, priority, running, jobs := [], [], [], map[];
      port, closed, draining, preferred := None, false, false, 0;
      settled, dispatched := [], [];
    }

    /** Settles a job once, then lets waiting work move up. Called from inside a drain it only settles. */
    method Finish(id: nat, outcome: Outcome, w: World)
      requires Sound(Contents())
      modifies this
      ensures Contents() == FinishOf(old(Contents()), id, outcome, w)
      decreases if draining then 1 else 4
    {
      hide Sound, DrainOf;
      if id !in jobs || jobs[id].done { return; }
      SettleKeeps(Contents(), id, outcome);
      var priorityJob := jobs[id].class_.priority;
      jobs := jobs[id := jobs[id].(done := true)];
      running := Without(running, id);
      if priorityJob { priority := Without(priority, id); } else { normal := Without(normal, id); }
      settled := settled + [(id, outcome)];
      assert Contents() == Settle(old(Contents()), id, outcome);
      Drain(w);
    }

    /** Dispatches admitted jobs until five run or none is admitted. */
    method Drain(w: World)
      requires Sound(Contents())
      modifies this
      ensures Contents() == DrainOf(old(Contents()), w)
      decreases if draining then 0 else 3
    {
      hide Sound, Serve, Pick;
      if draining || closed || port.None? { return; }
      SoundIgnoresShell(Contents(), None, false, true);
      draining := true;
      ghost var start := Contents();
      var n := 0;
      while CanServe(Contents())
        invariant Sound(Contents()) && draining
        invariant Loop(Contents(), w, n) == Loop(start, w, 0)
        decreases Waiting(Contents())
      {
        ServeKeeps(Contents(), w.clock(n), w.verdict(Pick(Contents()).value));
        var id := Pick(Contents()).value;
        ServePicked(id, w.clock(n), w.verdict(id), w);
        n := n + 1;
      }
      draining := false;
    }

    /** One round: the picked job times out, is sent, is answered early, or fails to be sent. */
    method ServePicked(id: nat, now: int, verdict: Verdict, w: World)
      requires Sound(Contents()) && CanServe(Contents()) && draining && Pick(Contents()) == Some(id)
      modifies this
      ensures Contents() == Serve(old(Contents()), id, now, verdict)
      decreases 2
    {
      hide Sound, DrainOf, Dispatchable;
      PickIsDispatchable(Contents());
      WaitingIsUnfinished(Contents(), id);
      StartKeeps(Contents(), id);
      ghost var q := Contents();
      WhileDraining(q, id, TimedOut, w);
      if Expired(Contents(), id, now) {
        Finish(id, TimedOut, w);
        return;
      }
      if jobs[id].class_.priority {
        priority := Without(priority, id);
        preferred := if preferred < MAX_PREFERRED then preferred + 1 else MAX_PREFERRED;
      } else {
        normal := Without(normal, id);
        preferred := 0;
      }
      running := running + [id];
      dispatched := dispatched + [id];
      assert Contents() == Start(q, id);
      WhileDraining(Contents(), id, Early, w);
      WhileDraining(Contents(), id, Failed, w);
      match verdict
      case Sent =>
      case AnsweredEarly => Finish(id, Early, w);
      case Threw => Finish(id, Failed, w);
    }

    /** Queues a new job, unless the queue is closed; the caller's promise is then answered at once. */
    method Ask(id: nat, c: Class, deadline: Option<int>, w: World) returns (accepted: bool)
      requires Sound(Contents()) && NewId(Contents(), id)
      modifies this
      ensures Contents() == AskOf(old(Contents()), id, c, deadline, w) && accepted == !old(closed)
    {
      hide Sound, DrainOf;
      if closed { return false; }
      EnqueueKeeps(Contents(), id, c, deadline);
      jobs := jobs[id := Job(c, deadline, false)];
      if c.priority { priority := priority + [id]; } else { normal := normal + [id]; }
      assert Contents() == Enqueue(old(Contents()), id, c, deadline);
      Drain(w);
      accepted := true;
    }

    /** Takes a snapshot first: finishing one job could wake another, were the port not put aside. */
    method Cancel(outcome: Outcome, w: World)
      requires Sound(Contents())
      modifies this
      ensures Contents() == CancelOf(old(Contents()), outcome)
    {
      hide Sound, Settle;
      var previous := port;
      SoundIgnoresShell(Contents(), None, false, false);
      port := None;
      ghost var start := Contents();
      var ids := running + normal + priority;
      for i := 0 to |ids|
        invariant Sound(Contents()) && port.None?
        invariant SettleAll(Contents(), ids[i..], outcome) == SettleAll(start, ids, outcome)
      {
        assert ids[i..][0] == ids[i] && ids[i..][1..] == ids[i + 1..];
        SettleKeeps(Contents(), ids[i], outcome);
        SettleEffect(Contents(), ids[i], outcome);
        WithoutPort(Contents(), ids[i], outcome, w);
        Finish(ids[i], outcome, w);
      }
      port := previous;
    }

    method SetPort(next: Option<nat>, w: World)
      requires Sound(Contents())
      modifies this
      ensures Contents() == SetPortOf(old(Contents()), next, w)
    {
      hide Sound, CancelOf, DrainOf;
      if next == port || closed { return; }
      CancelKeeps(Contents(), Canceled);
      if port.Some? { Cancel(Canceled, w); }
      SoundIgnoresShell(Contents(), next, false, false);
      port := next;
      Drain(w);
    }

    method Close(w: World)
      requires Sound(Contents())
      modifies this
      ensures Contents() == CloseOf(old(Contents()))
    {
      hide Sound, CancelOf;
      SoundIgnoresShell(Contents(), None, true, false);
      closed := true;
      Cancel(QueueClosed, w);
      port := None;
    }
  }

  /** Without a port, finishing a job is settling it. */
  lemma WithoutPort(q: State, id: nat, outcome: Outcome, w: World)
    requires Sound(q) && q.port.None?
    ensures FinishOf(q, id, outcome, w) == Settle(q, id, outcome)
  {
    SettleEffect(q, id, outcome);
  }

  /** Inside a drain, finishing a job is settling it. */
  lemma WhileDraining(q: State, id: nat, outcome: Outcome, w: World)
    requires Sound(q) && q.draining
    ensures FinishOf(q, id, outcome, w) == Settle(q, id, outcome)
  {
    SettleEffect(q, id, outcome);
  }
}
