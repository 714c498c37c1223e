/** What each operation of the vault queue answers, and that no job waits while it could be sent. */
module VaultLaws {
  import opened Basics
  import opened VaultQueue

  // ---- the caps ----

  function Of(jobs: map<nat, Job>, ids: seq<nat>, p: Class -> bool): set<nat> {
    set id | id in ids && p(ClassOf(jobs, id))
  }

  lemma {:induction false} CountsAre(jobs: map<nat, Job>, ids: seq<nat>)
    requires NoDup(ids)
    ensures Chunks(jobs, ids) == |Of(jobs, ids, (c: Class) => c.chunk)|
    ensures Archives(jobs, ids) == |Of(jobs, ids, (c: Class) => c.archive)|
    ensures Normals(jobs, ids) == |Of(jobs, ids, (c: Class) => !c.priority)|
  {
    if ids != [] {
      NoDupTail(ids);
      CountsAre(jobs, ids[1..]);
      OfCons(jobs, ids, (c: Class) => c.chunk);
      OfCons(jobs, ids, (c: Class) => c.archive);
      OfCons(jobs, ids, (c: Class) => !c.priority);
      hide Of;
    }
  }

  lemma NoDupTail(ids: seq<nat>)
    requires NoDup(ids) && ids != []
    ensures NoDup(ids[1..]) && ids[0] !in ids[1..]
  {
  }

  lemma OfCons(jobs: map<nat, Job>, ids: seq<nat>, p: Class -> bool)
    requires ids != [] && ids[0] !in ids[1..]
    ensures |Of(jobs, ids, p)| == |Of(jobs, ids[1..], p)| + if p(ClassOf(jobs, ids[0])) then 1 else 0
  {
    hide ClassOf;
    var rest := Of(jobs, ids[1..], p);
    assert Of(jobs, ids, p) == if p(ClassOf(jobs, ids[0])) then rest + {ids[0]} else rest by {
      assert forall id :: id in ids <==> id == ids[0] || id in ids[1..];
    }
  }

  /**
   * The caps, in numbers: a waiting job may be sent unless four jobs of normal priority are running and it is one, or two
   * with chunks and it has chunks, or two with archives and it has one.
   */
  lemma DispatchableIs(q: State, id: nat)
    requires Sound(q) && (id in q.normal || id in q.priority)
    ensures id in q.jobs
    ensures var c := q.jobs[id].class_;
            Dispatchable(q, id) <==>
              && (c.priority || |Of(q.jobs, q.running, (c: Class) => !c.priority)| < 4)
              && (c.chunk ==> |Of(q.jobs, q.running, (c: Class) => c.chunk)| < 2)
              && (c.archive ==> |Of(q.jobs, q.running, (c: Class) => c.archive)| < 2)
  {
    CountsAre(q.jobs, q.running);
    hide Of, Chunks, Archives, Normals, NoDup;
  }

  // ---- a round ----

  /** A round answers an expired job without sending it; otherwise the job is sent, and runs unless it was answered or threw. */
  lemma ServeIs(q: State, now: int, verdict: Verdict)
    requires Sound(q) && Pick(q).Some?
    ensures var id := Pick(q).value;
            var r := Serve(q, id, now, verdict);
            && id in q.jobs && id !in r.normal && id !in r.priority
            && if q.jobs[id].deadline.Some? && q.jobs[id].deadline.value <= now then
                 r.settled == q.settled + [(id, TimedOut)] && r.dispatched == q.dispatched && r.running == q.running
               else
                 && r.dispatched == q.dispatched + [id]
                 && match verdict
                    case Sent => r.running == q.running + [id] && r.settled == q.settled
                    case AnsweredEarly => r.running == q.running && r.settled == q.settled + [(id, Early)]
                    case Threw => r.running == q.running && r.settled == q.settled + [(id, Failed)]
  {
    var id := Pick(q).value;
    PickIsDispatchable(q);
    WaitingIsUnfinished(q, id);
    Waits(q, id);
    hide Sound, Pick, Dispatchable;
    RoundIs(q, id, now, verdict);
    hide Serve;
  }

  lemma RoundIs(q: State, id: nat, now: int, verdict: Verdict)
    requires NoDup(q.normal) && NoDup(q.priority) && id in q.jobs && !q.jobs[id].done && id !in q.running
    requires if q.jobs[id].class_.priority then id !in q.normal else id !in q.priority
    ensures var r := Serve(q, id, now, verdict);
            && id !in r.normal && id !in r.priority
            && if q.jobs[id].deadline.Some? && q.jobs[id].deadline.value <= now then
                 r.settled == q.settled + [(id, TimedOut)] && r.dispatched == q.dispatched && r.running == q.running
               else
                 && r.dispatched == q.dispatched + [id]
                 && match verdict
                    case Sent => r.running == q.running + [id] && r.settled == q.settled
                    case AnsweredEarly => r.running == q.running && r.settled == q.settled + [(id, Early)]
                    case Threw => r.running == q.running && r.settled == q.settled + [(id, Failed)]
  {
    hide Start, Settle, Without, NoDup;
    StartIs(q, id);
    WithoutLast(q.running, id);
    match verdict {
      case Sent => { SettleIs(q, id, TimedOut); }
      case AnsweredEarly => { SettleIs(q, id, TimedOut); SettleIs(Start(q, id), id, Early); }
      case Threw => { SettleIs(q, id, TimedOut); SettleIs(Start(q, id), id, Failed); }
    }
  }

  lemma Waits(q: State, id: nat)
    requires Sound(q) && (id in q.normal || id in q.priority)
    ensures id !in q.running && NoDup(q.normal) && NoDup(q.priority)
    ensures if q.jobs[id].class_.priority then id !in q.normal else id !in q.priority
  {
    hide SettledOnce, WithinCaps, InOrder, PriorityRun;
  }

  lemma StartIs(q: State, id: nat)
    requires NoDup(q.normal) && NoDup(q.priority) && id in q.jobs
    requires if q.jobs[id].class_.priority then id !in q.normal else id !in q.priority
    ensures var r := Start(q, id);
            && id !in r.normal && id !in r.priority && r.running == q.running + [id] && r.settled == q.settled
            && r.dispatched == q.dispatched + [id] && r.jobs == q.jobs && NoDup(r.normal) && NoDup(r.priority)
  {
    WithoutMember(q.normal, id);
    WithoutMember(q.priority, id);
    hide Without, NoDup;
  }

  lemma SettleIs(q: State, id: nat, outcome: Outcome)
    requires id in q.jobs && !q.jobs[id].done && NoDup(q.normal) && NoDup(q.priority)
    ensures var r := Settle(q, id, outcome);
            && r.settled == q.settled + [(id, outcome)] && r.dispatched == q.dispatched && r.running == Without(q.running, id)
            && (if q.jobs[id].class_.priority then id !in r.priority else id !in r.normal)
            && r.normal == (if q.jobs[id].class_.priority then q.normal else Without(q.normal, id))
            && r.priority == (if q.jobs[id].class_.priority then Without(q.priority, id) else q.priority)
            && forall x :: (x in r.normal ==> x in q.normal) && (x in r.priority ==> x in q.priority)
  {
    WithoutMember(q.normal, id);
    WithoutMember(q.priority, id);
    hide Without, NoDup;
  }

  lemma {:induction false} WithoutLast(s: seq<nat>, x: nat)
    requires x !in s
    ensures Without(s + [x], x) == s && Without(s, x) == s
  {
    if s != [] {
      assert (s + [x])[1..] == s[1..] + [x];
      WithoutLast(s[1..], x);
    }
  }

  // ---- outcomes ----

  /** Canceling answers every unfinished job with the given outcome, and nobody else. */
  lemma CancelAnswers(q: State, outcome: Outcome)
    requires Sound(q)
    ensures var r := CancelOf(q, outcome);
            && q.settled <= r.settled && r.dispatched == q.dispatched
            && (forall k | |q.settled| <= k < |r.settled| :: r.settled[k].1 == outcome)
            && forall id | id in q.jobs && !q.jobs[id].done :: (id, outcome) in r.settled[|q.settled|..]
  {
    hide Sound, SettleAll;
    SoundIgnoresShell(q, None, false, false);
    CancelKeeps(q, outcome);
    AllAnswered(q.(port := None), q.running + q.normal + q.priority, outcome);
    var r := CancelOf(q, outcome);
    hide CancelOf;
    SettledJobs(q);
    SettledJobs(r);
    forall id | id in q.jobs && !q.jobs[id].done ensures (id, outcome) in r.settled[|q.settled|..] {
      assert id in r.jobs && r.jobs[id].done;
      forall k | 0 <= k < |q.settled| ensures r.settled[k].0 != id { assert q.settled[k] == r.settled[k]; }
      var k :| 0 <= k < |r.settled| && r.settled[k].0 == id;
      assert r.settled[|q.settled|..][k - |q.settled|] == (id, outcome);
    }
  }

  /** Exactly the finished jobs have been answered. */
  lemma SettledJobs(q: State)
    requires Sound(q)
    ensures forall k | 0 <= k < |q.settled| :: q.settled[k].0 in q.jobs && q.jobs[q.settled[k].0].done
    ensures forall id | id in q.jobs && q.jobs[id].done :: exists k :: 0 <= k < |q.settled| && q.settled[k].0 == id
  {
    hide Placed, WithinCaps, InOrder, PriorityRun;
  }

  lemma {:induction false} AllAnswered(q: State, ids: seq<nat>, outcome: Outcome)
    ensures var r := SettleAll(q, ids, outcome);
            && q.settled <= r.settled && r.dispatched == q.dispatched
            && forall k | |q.settled| <= k < |r.settled| :: r.settled[k].1 == outcome
    decreases |ids|
  {
    if ids != [] {
      AllAnswered(Settle(q, ids[0], outcome), ids[1..], outcome);
      hide Without;
    }
  }

  /** Who gets which answer when the connection changes, when everything is canceled, and when the queue closes. */
  lemma EventAnswers(q: State, e: Event, id: nat, w: World, job: nat)
    requires Sound(q) && NewId(q, id) && job in q.jobs && !q.jobs[job].done
    ensures e.Cancel? ==> (job, Canceled) in ApplyEvent(q, e, id, w).settled
    ensures e.Close? ==> (job, QueueClosed) in ApplyEvent(q, e, id, w).settled
    ensures e.SetPort? && q.port.Some? && e.next != q.port && !q.closed && e.next.None? ==> (job, Canceled) in ApplyEvent(q, e, id, w).settled
  {
    hide Sound, CancelOf, NewId, Loop;
    CancelAnswers(q, Canceled);
    SoundIgnoresShell(q, None, true, false);
    CancelAnswers(q.(closed := true), QueueClosed);
    InTail(CancelOf(q, Canceled).settled, |q.settled|, (job, Canceled));
    InTail(CancelOf(q.(closed := true), QueueClosed).settled, |q.settled|, (job, QueueClosed));
  }

  lemma InTail<T>(s: seq<T>, n: nat, x: T)
    requires n <= |s|
    ensures x in s[n..] ==> x in s
  {
  }

  /** A job that is asked for is taken in with its class and deadline, unless the queue is closed. */
  lemma AskIs(q: State, id: nat, c: Class, deadline: Option<int>, w: World)
    requires Sound(q) && NewId(q, id)
    ensures var r := AskOf(q, id, c, deadline, w);
            if q.closed then r == q
            else id in r.jobs && r.jobs[id].class_ == c && r.jobs[id].deadline == deadline
  {
    hide Sound, Loop, NewId;
    if !q.closed {
      EnqueueKeeps(q, id, c, deadline);
      var asked := Enqueue(q, id, c, deadline);
      if !(asked.draining || asked.closed || asked.port.None?) {
        SoundIgnoresShell(asked, None, false, true);
        LoopSame(asked.(draining := true), w, 0, id);
      }
    }
  }

  /** A drain changes neither the class nor the deadline of a job. */
  lemma {:induction false} LoopSame(q: State, w: World, n: nat, id: nat)
    requires Sound(q) && id in q.jobs
    ensures var r := Loop(q, w, n); id in r.jobs && r.jobs[id].class_ == q.jobs[id].class_ && r.jobs[id].deadline == q.jobs[id].deadline
    decreases Waiting(q)
  {
    hide Sound, Pick, Serve;
    if CanServe(q) {
      ServeKeeps(q, w.clock(n), w.verdict(Pick(q).value));
      ServeSame(q, Pick(q).value, w.clock(n), w.verdict(Pick(q).value), id);
      LoopSame(Serve(q, Pick(q).value, w.clock(n), w.verdict(Pick(q).value)), w, n + 1, id);
    }
  }

  lemma ServeSame(q: State, picked: nat, now: int, verdict: Verdict, id: nat)
    requires id in q.jobs
    ensures var r := Serve(q, picked, now, verdict);
            id in r.jobs && r.jobs[id].class_ == q.jobs[id].class_ && r.jobs[id].deadline == q.jobs[id].deadline
  {
    hide Without;
  }

  // ---- nobody waits for nothing ----

  /** With a connection, as many jobs are running as may, or the caps forbid every job that waits. */
  ghost predicate Busy(q: State) {
    q.port.Some? && !q.closed ==> |q.running| >= 5 || forall id | id in q.normal || id in q.priority :: !Dispatchable(q, id)
  }

  lemma DrainBusy(q: State, w: World)
    requires Sound(q) && !q.draining
    ensures Busy(DrainOf(q, w))
  {
    hide Sound, Loop, Dispatchable;
    if !q.closed && q.port.Some? { DrainStopsWhenStuck(q, w); }
    DrainKeeps(q, w);
  }

  lemma EventBusy(q: State, e: Event, id: nat, w: World)
    requires Sound(q) && NewId(q, id) && !q.draining && Busy(q)
    ensures Busy(ApplyEvent(q, e, id, w))
  {
    hide Sound, DrainOf, CancelOf, Dispatchable, NewId, Settle, Enqueue;
    match e {
      case Ask(c, deadline) => {
        if !q.closed {
          EnqueueKeeps(q, id, c, deadline);
          AskedShell(q, id, c, deadline);
          DrainBusy(Enqueue(q, id, c, deadline), w);
        }
      }
      case Reply(job, outcome) => { FinishBusy(q, job, outcome, w); }
      case TimerFires(job) => { FinishBusy(q, job, TimedOut, w); }
      case SetPort(next) => {
        CancelKeeps(q, Canceled);
        var canceled := if q.port.Some? then CancelOf(q, Canceled) else q;
        SoundIgnoresShell(canceled, next, false, false);
        if next != q.port && !q.closed { DrainBusy(canceled.(port := next), w); }
      }
      case Cancel => { CancelKeeps(q, Canceled); }
      case Close => { CloseKeeps(q); hide CloseOf; }
    }
  }

  lemma AskedShell(q: State, id: nat, c: Class, deadline: Option<int>)
    ensures Enqueue(q, id, c, deadline).draining == q.draining
  {
  }

  lemma FinishBusy(q: State, job: nat, outcome: Outcome, w: World)
    requires Sound(q) && !q.draining && Busy(q)
    ensures Busy(FinishOf(q, job, outcome, w))
  {
    hide Sound, DrainOf, Settle, Busy;
    if job in q.jobs && !q.jobs[job].done {
      SettleKeeps(q, job, outcome);
      SettleEffect(q, job, outcome);
      DrainBusy(Settle(q, job, outcome), w);
    }
  }

  /** Over every run: no job waits while it could be sent. */
  lemma {:induction false} RunBusy(states: seq<State>, events: seq<Event>, worlds: seq<World>, n: nat)
    requires IsRun(states, events, worlds) && n < |states|
    ensures Busy(states[n])
  {
    hide Sound, ApplyEvent, Busy, NewId;
    if n > 0 {
      RunBusy(states, events, worlds, n - 1);
      RunSound(states, events, worlds, n - 1);
      EventBusy(states[n - 1], events[n - 1], n - 1, worlds[n - 1]);
      assert states[n] == ApplyEvent(states[n - 1], events[n - 1], n - 1, worlds[n - 1]);
    } else {
      EmptyBusy(states[0]);
    }
  }

  lemma EmptyBusy(q: State)
    requires Empty(q)
    ensures Busy(q)
  {
  }

  // ---- the connection ----

  /** Only a change of the connection changes the port; it takes the new one, unless the queue is closed, and closing drops it. */
  lemma PortIs(q: State, e: Event, id: nat, w: World)
    requires Sound(q) && NewId(q, id)
    ensures var r := ApplyEvent(q, e, id, w);
            && r.port == (match e case SetPort(next) => if q.closed then q.port else next case Close => None case _ => q.port)
            && r.closed == (q.closed || e.Close?)
  {
    hide Sound, NewId, Loop, CancelOf, Settle, Enqueue;
    match e {
      case Ask(c, deadline) => {
        if !q.closed {
          EnqueueKeeps(q, id, c, deadline);
          EnqueueShell(q, id, c, deadline);
          DrainKeeps(Enqueue(q, id, c, deadline), w);
        }
        hide DrainOf;
      }
      case Reply(job, outcome) => { FinishKeeps(q, job, outcome, w); hide FinishOf; }
      case TimerFires(job) => { FinishKeeps(q, job, TimedOut, w); hide FinishOf; }
      case SetPort(next) => {
        CancelKeeps(q, Canceled);
        var canceled := if q.port.Some? then CancelOf(q, Canceled) else q;
        SoundIgnoresShell(canceled, next, false, false);
        DrainKeeps(canceled.(port := next), w);
        hide DrainOf;
      }
      case Cancel => { CancelKeeps(q, Canceled); }
      case Close => { CloseKeeps(q); hide CloseOf; }
    }
  }

  lemma EnqueueShell(q: State, id: nat, c: Class, deadline: Option<int>)
    ensures Enqueue(q, id, c, deadline).port == q.port && Enqueue(q, id, c, deadline).closed == q.closed
    ensures Enqueue(q, id, c, deadline).dispatched == q.dispatched
  {
  }

  /** Without a connection, or once closed, nothing is sent. */
  lemma NothingIsSent(q: State, e: Event, id: nat, w: World)
    requires Sound(q) && NewId(q, id) && (q.port.None? || q.closed) && !e.SetPort?
    ensures ApplyEvent(q, e, id, w).dispatched == q.dispatched
  {
    hide Sound, NewId, Loop, CancelOf, Settle, Enqueue;
    match e {
      case Ask(c, deadline) => { EnqueueShell(q, id, c, deadline); }
      case Reply(job, outcome) => { SettleShell(q, job, outcome); }
      case TimerFires(job) => { SettleShell(q, job, TimedOut); }
      case Cancel => { CancelAnswers(q, Canceled); }
      case Close => {
        SoundIgnoresShell(q, None, true, false);
        CancelAnswers(q.(closed := true), QueueClosed);
      }
      case _ => { }
    }
  }

  lemma SettleShell(q: State, job: nat, outcome: Outcome)
    ensures var r := Settle(q, job, outcome); r.dispatched == q.dispatched && r.port == q.port && r.closed == q.closed
  {
    hide Without;
  }
}
