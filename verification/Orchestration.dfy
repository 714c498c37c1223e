/**
 * The download as a whole: the orchestrator of windows together with the range downloaders it runs, at most two at a time.
 * The downloaders work on their own, and the orchestrator hears of what they did at any later time.
 */
module Orchestration {
  import opened Basics
  import D = RangeDownload
  import R = RangeSafety
  import F = RangeForgotten
  import W = Windows
  import opened Workers

  /** A worker for each active slot, once the loader has answered for it. */
  datatype Crew = Crew(q: W.State, workers: seq<Option<D.State>>)

  datatype Step =
    | Answer(k: nat, worker: D.State, world: D.World)
    | Act(k: nat, event: R.Event)
    | Report(report: W.Event)
    | Break

  // ---- what an event does to the slots ----

  ghost predicate SameCounts(s: W.Slot, s': W.Slot) {
    s == s'.(covered := s.covered, needed := s.needed)
  }

  /** Every slot stays as it is, up to its coverage, and one may be opened whose worker is still to be built. */
  ghost predicate Extends(slots: seq<W.Slot>, slots': seq<W.Slot>) {
    && |slots| <= |slots'| <= |slots| + 1
    && (forall j | 0 <= j < |slots| :: SameCounts(slots[j], slots'[j]))
    && (|slots'| > |slots| ==> !slots'[|slots|].worker)
  }

  /** The slots after an event's own effect. */
  ghost function Changed(q: W.State, e: W.Event): seq<W.Slot>
    requires e.Broken? || SlotOf(e) < |q.active|
  {
    match e
    case Loaded(k, cached) => q.active[k := q.active[k].(worker := true, cached := cached)]
    case Chunk(k) => q.active[k := q.active[k].(delivered := q.active[k].delivered + 1)]
    case Missing(k) => q.active[k := q.active[k].(missing := q.active[k].missing + 1)]
    case Discovered(_, _) => q.active
    case Finished(k) => q.active[..k] + q.active[k + 1..]
    case Broken => []
  }

  /** The first window of an unknown total is the discovery window; any other slot begins within the total, ending where it ends. */
  ghost predicate Provisioned(c: W.Config, q: W.State, s: W.Slot) {
    && (q.total.None? ==> s.end == c.discoveryLength - 1)
    && (q.total.Some? && !s.worker ==> s.end == s.maxEnd < q.total.value)
  }

  ghost predicate AllProvisioned(c: W.Config, q: W.State) {
    && (forall s | s in q.active :: Provisioned(c, q, s))
    && (q.total.Some? && c.end.Some? ==> c.end.value < q.total.value)
  }

  lemma NextExtends(c: W.Config, q: W.State)
    requires 0 < c.discoveryLength <= c.windowSize && AllProvisioned(c, q)
    ensures var q' := W.StartNext(c, q);
            && q'.total == q.total && q'.informed == q.informed && q'.outcome == q.outcome
            && Extends(q.active, q'.active) && AllProvisioned(c, q')
  {
    hide W.Threshold;
  }

  lemma CoveredExtends(c: W.Config, q: W.State, k: nat)
    requires 0 < c.discoveryLength <= c.windowSize && AllProvisioned(c, q) && k < |q.active| && W.Length(q.total, q.active[k]) >= 0
    ensures var q' := W.Covered(c, q, k);
            && q'.total == q.total && q'.informed == q.informed && q'.outcome == q.outcome
            && Extends(q.active, q'.active) && AllProvisioned(c, q')
  {
    hide W.StartNext, W.Threshold, W.Length;
    if q.outcome.Pending? {
      var n := W.Noted(c, q, k);
      forall s | s in n.active ensures Provisioned(c, n, s) {
        assert s in q.active || q.active[k] in q.active;
      }
      NextExtends(c, n);
    }
  }

  /** What an event leaves, if the download goes on. */
  ghost predicate Effect(c: W.Config, q: W.State, e: W.Event, q': W.State) {
    q'.outcome.Pending? ==>
      && !e.Broken? && SlotOf(e) < |q.active| && q.outcome.Pending?
      && Extends(Changed(q, e), q'.active) && AllProvisioned(c, q')
      && q'.total == (if e.Discovered? then Some(e.total) else q.total) && q'.informed == q.informed
  }

  lemma AcceptedSizes(c: W.Config, q: W.State)
    requires W.Live(c, q)
    ensures 0 < c.discoveryLength <= c.windowSize && W.Sane(q)
    ensures q.total.None? ==> |q.active| <= 1
    ensures q.informed ==> q.total.Some?
  {
    hide W.Balanced, W.Last;
  }

  lemma InvSizes(c: W.Config, q: W.State)
    requires W.Inv(c, q) && q.outcome.Pending?
    ensures 0 < c.discoveryLength <= c.windowSize && W.Sane(q) && W.Live(c, q)
    ensures q.total.None? ==> |q.active| <= 1
  {
    hide W.Live;
    AcceptedSizes(c, q);
  }

  lemma CountedExtends(c: W.Config, q: W.State, k: nat, s: W.Slot)
    requires AllProvisioned(c, q) && k < |q.active| && s.start == q.active[k].start && s.end == q.active[k].end && s.maxEnd == q.active[k].maxEnd
    requires s.worker
    ensures AllProvisioned(c, q.(active := q.active[k := s]))
  {
    var q' := q.(active := q.active[k := s]);
    forall x | x in q'.active ensures Provisioned(c, q', x) {
      assert x == s || x in q.active;
      assert q.active[k] in q.active;
    }
  }

  lemma EventEffect(c: W.Config, q: W.State, e: W.Event)
    requires W.Inv(c, q) && W.Enabled(c, q, e) && AllProvisioned(c, q)
    ensures Effect(c, q, e, W.Happen(c, q, e))
  {
    InvSizes(c, q);
    hide W.Inv, W.Live, W.Length, W.Threshold, W.Covered, W.StartNext, W.Closable, AllProvisioned, Extends;
    match e {
      case Loaded(k, cached) => { LoadedEffect(c, q, k, cached); }
      case Chunk(k) => { ChunkEffect(c, q, k); }
      case Missing(k) => { MissingEffect(c, q, k); }
      case Discovered(k, total) => { DiscoveredEffect(c, q, k, total); }
      case Finished(k) => { FinishedEffect(c, q, k); }
      case Broken => { }
    }
  }

  lemma LoadedEffect(c: W.Config, q: W.State, k: nat, cached: nat)
    requires 0 < c.discoveryLength <= c.windowSize && W.Sane(q) && W.Enabled(c, q, W.Loaded(k, cached)) && AllProvisioned(c, q)
    ensures Effect(c, q, W.Loaded(k, cached), W.Load(c, q, k, cached))
  {
    CountedExtends(c, q, k, q.active[k].(worker := true, cached := cached));
    var loaded := W.WithCached(q, k, cached);
    SameProvisioned(c, q.(active := loaded.active), loaded);
    CoveredExtends(c, loaded, k);
    hide W.Covered, W.Length, Extends, AllProvisioned;
  }

  lemma ChunkEffect(c: W.Config, q: W.State, k: nat)
    requires 0 < c.discoveryLength <= c.windowSize && W.Sane(q) && W.Enabled(c, q, W.Chunk(k)) && AllProvisioned(c, q)
    ensures Effect(c, q, W.Chunk(k), W.Deliver(c, q, k))
  {
    CountedExtends(c, q, k, q.active[k].(delivered := q.active[k].delivered + 1));
    var more := W.WithChunk(q, k);
    SameProvisioned(c, q.(active := more.active), more);
    CoveredExtends(c, more, k);
    hide W.Covered, W.Length, Extends, AllProvisioned;
  }

  lemma MissingEffect(c: W.Config, q: W.State, k: nat)
    requires 0 < c.discoveryLength <= c.windowSize && W.Sane(q) && W.Enabled(c, q, W.Missing(k)) && AllProvisioned(c, q)
    ensures Effect(c, q, W.Missing(k), W.Miss(c, q, k))
  {
    CountedExtends(c, q, k, q.active[k].(missing := q.active[k].missing + 1));
    var more := W.WithMissing(q, k);
    SameProvisioned(c, q.(active := more.active), more);
    ExtendsSame(more.active);
    hide W.Length, Extends, AllProvisioned;
  }

  lemma DiscoveredEffect(c: W.Config, q: W.State, k: nat, total: nat)
    requires 0 < c.discoveryLength <= c.windowSize && W.Sane(q) && |q.active| <= 1 && W.Enabled(c, q, W.Discovered(k, total))
    ensures Effect(c, q, W.Discovered(k, total), W.Discover(c, q, k, total))
  {
    var told := q.(total := Some(total));
    assert AllProvisioned(c, told) by { assert q.active == [q.active[0]]; }
    CoveredExtends(c, told, k);
    hide W.Covered, W.Length, Extends, AllProvisioned;
  }

  lemma FinishedEffect(c: W.Config, q: W.State, k: nat)
    requires 0 < c.discoveryLength <= c.windowSize && W.Enabled(c, q, W.Finished(k)) && AllProvisioned(c, q)
    ensures Effect(c, q, W.Finished(k), W.Close(c, q, k))
  {
    var rest := q.(active := q.active[..k] + q.active[k + 1..], closed := q.closed + [q.active[k]]);
    forall s | s in rest.active ensures Provisioned(c, rest, s) { assert s in q.active; }
    NextExtends(c, rest);
    ExtendsSame(rest.active);
    hide W.StartNext, Extends, AllProvisioned, W.Last;
  }

  lemma ExtendsSame(slots: seq<W.Slot>)
    ensures Extends(slots, slots)
  {
  }

  /** Provision is about the slots and the total only. */
  lemma SameProvisioned(c: W.Config, q: W.State, q': W.State)
    requires AllProvisioned(c, q) && q'.active == q.active && q'.total == q.total
    ensures AllProvisioned(c, q')
  {
  }

  // ---- the crew ----

  /** A slot's worker: not yet built, or sound and heard of in part. */
  ghost predicate Linked(c: W.Config, q: W.State, s: W.Slot, worker: Option<D.State>) {
    match worker
    case None => !s.worker && s.delivered == s.missing == 0
    case Some(p) => Sound(p) && Heard(c, q, s, p)
  }

  ghost predicate AllLinked(c: W.Config, q: W.State, workers: seq<Option<D.State>>) {
    |workers| == |q.active| && forall k | 0 <= k < |workers| :: Linked(c, q, q.active[k], workers[k])
  }

  ghost predicate CrewInv(c: W.Config, crew: Crew) {
    W.Inv(c, crew.q) && (crew.q.outcome.Pending? ==> AllProvisioned(c, crew.q) && AllLinked(c, crew.q, crew.workers))
  }

  /** A total that does not contain the requested interval is refused, and its chunk ignored. */
  ghost predicate Allowed(c: W.Config, p: D.State, e: R.Event) {
    e.Chunk? && p.total.None? && c.end.Some? ==> c.end.value < e.total
  }

  ghost predicate Possible(c: W.Config, crew: Crew, step: Step) {
    && crew.q.outcome.Pending?
    && match step
       case Answer(k, p, _) => k < |crew.workers| && k < |crew.q.active| && crew.workers[k].None? && BuiltFor(c, crew.q, crew.q.active[k], p)
       case Act(k, e) => k < |crew.workers| && crew.workers[k].Some? && R.Enabled(crew.workers[k].value, e) && Allowed(c, crew.workers[k].value, e)
       case Report(e) =>
         var k := SlotOf(e);
         k < |crew.workers| && k < |crew.q.active| && crew.workers[k].Some? && Unheard(crew.q, crew.q.active[k], crew.workers[k].value, e)
       case Break => true
  }

  /** The window event of a step, if it is one. */
  ghost function EventOf(step: Step): Option<W.Event> {
    match step
    case Answer(k, p, _) => Some(W.Loaded(k, |p.cached|))
    case Act(_, _) => None
    case Report(e) => Some(e)
    case Break => Some(W.Broken)
  }

  /** The workers after a step's own effect. */
  ghost function Staffed(workers: seq<Option<D.State>>, step: Step): seq<Option<D.State>> {
    match step
    case Answer(k, p, w) => if k < |workers| then workers[k := Some(R.Begin(p, w))] else workers
    case Act(k, e) =>
      if k < |workers| && workers[k].Some? && R.Shape(workers[k].value) && R.Enabled(workers[k].value, e)
      then workers[k := Some(R.Happen(workers[k].value, e))] else workers
    case Report(e) => if e.Finished? && e.k < |workers| then workers[..e.k] + workers[e.k + 1..] else workers
    case Break => workers
  }

  ghost function Sized(workers: seq<Option<D.State>>, n: nat): seq<Option<D.State>> {
    if |workers| < n then workers + [None] else workers
  }

  /** Each window event that a step makes is one the orchestrator's machine allows. */
  lemma StepEnabled(c: W.Config, crew: Crew, step: Step)
    requires CrewInv(c, crew) && Possible(c, crew, step) && EventOf(step).Some?
    ensures 0 < c.discoveryLength <= c.windowSize && W.Sane(crew.q) && W.Enabled(c, crew.q, EventOf(step).value)
  {
    InvSizes(c, crew.q);
    match step {
      case Answer(k, p, _) => { AnswerEnabled(c, crew.q, k, p); hide *; }
      case Report(e) => {
        hide W.Inv, Sound, Heard, Unheard, W.Sane;
        assert Linked(c, crew.q, crew.q.active[SlotOf(e)], crew.workers[SlotOf(e)]);
        ReportsEnabled(c, crew.q, crew.workers[SlotOf(e)].value, e);
      }
      case _ => { hide *; }
    }
  }

  lemma AnswerEnabled(c: W.Config, q: W.State, k: nat, p: D.State)
    requires q.outcome.Pending? && k < |q.active| && AllProvisioned(c, q) && BuiltFor(c, q, q.active[k], p) && !q.active[k].worker
    ensures W.Enabled(c, q, W.Loaded(k, |p.cached|)) && p.end == W.SlotEnd(q.total, q.active[k])
  {
    var s := q.active[k];
    assert s in q.active && Provisioned(c, q, s);
    R.BetweenIs(p.start, p.end);
    forall i | i in p.cached ensures i in R.Between(p.start, p.end) { }
    R.Smaller(p.cached, R.Between(p.start, p.end));
  }

  ghost function After(c: W.Config, crew: Crew, step: Step): Crew
    requires CrewInv(c, crew) && Possible(c, crew, step)
  {
    if EventOf(step).None? then crew.(workers := Staffed(crew.workers, step))
    else
      StepEnabled(c, crew, step);
      var q := W.Happen(c, crew.q, EventOf(step).value);
      Crew(q, if q.outcome.Pending? then Sized(Staffed(crew.workers, step), |q.active|) else [])
  }

  lemma ActKeeps(c: W.Config, q: W.State, s: W.Slot, p: D.State, e: R.Event)
    requires Sound(p) && Heard(c, q, s, p) && R.Enabled(p, e) && Allowed(c, p, e)
    ensures R.Shape(p) && Sound(R.Happen(p, e)) && Heard(c, q, s, R.Happen(p, e))
  {
    WorkerSteps(p, e);
    hide Sound;
    R.EventTells(p, e);
    hide R.Happen;
  }

  lemma LinkedSame(c: W.Config, q: W.State, q': W.State, s: W.Slot, s': W.Slot, worker: Option<D.State>)
    requires Linked(c, q, s, worker) && SameCounts(s, s') && q'.total == q.total && q'.informed == q.informed
    ensures Linked(c, q', s', worker)
  {
    hide Sound;
  }

  /** The slots after an event's own effect are linked to the workers after the step's own effect. */
  ghost predicate Relinked(c: W.Config, q: W.State, slots: seq<W.Slot>, workers: seq<Option<D.State>>) {
    |workers| == |slots| && forall k | 0 <= k < |workers| :: Linked(c, q, slots[k], workers[k])
  }

  lemma LinkedAfter(c: W.Config, q: W.State, q': W.State, slots: seq<W.Slot>, workers: seq<Option<D.State>>)
    requires Relinked(c, q, slots, workers) && Extends(slots, q'.active) && q'.total == q.total && q'.informed == q.informed
    requires W.SlotsStarted(q')
    ensures AllLinked(c, q', Sized(workers, |q'.active|))
  {
    hide Linked;
    forall k | 0 <= k < |q'.active| ensures Linked(c, q', q'.active[k], Sized(workers, |q'.active|)[k]) {
      if k < |workers| {
        LinkedSame(c, q, q', slots[k], q'.active[k], workers[k]);
      } else {
        NewLinked(c, q', k);
      }
    }
  }

  lemma NewLinked(c: W.Config, q: W.State, k: nat)
    requires W.SlotsStarted(q) && k < |q.active| && !q.active[k].worker
    ensures Linked(c, q, q.active[k], None)
  {
  }

  lemma AnswerLinks(c: W.Config, q: W.State, k: nat, p: D.State, w: D.World)
    requires W.Sane(q) && AllProvisioned(c, q) && k < |q.active| && BuiltFor(c, q, q.active[k], p)
    requires Linked(c, q, q.active[k], None) && (q.total.None? ==> p.cached == {})
    ensures Linked(c, q, q.active[k].(worker := true, cached := |p.cached|), Some(R.Begin(p, w)))
  {
    var s := q.active[k];
    assert s in q.active && Provisioned(c, q, s);
    WorkerBegins(p, w);
    R.BeginTells(p, w);
    hide Sound, R.Begin, AllProvisioned;
  }

  lemma TellLinks(c: W.Config, q: W.State, k: nat, p: D.State, e: W.Event)
    requires k < |q.active| && Linked(c, q, q.active[k], Some(p)) && SlotOf(e) == k && Unheard(q, q.active[k], p, e)
    requires e.Chunk? || e.Missing?
    ensures Linked(c, q, Changed(q, e)[k], Some(p))
  {
    WorkerBounded(p);
    hide Sound;
  }

  lemma RelinkOne(c: W.Config, q: W.State, workers: seq<Option<D.State>>, k: nat, s: W.Slot, worker: Option<D.State>)
    requires AllLinked(c, q, workers) && k < |q.active| && Linked(c, q, s, worker)
    ensures Relinked(c, q, q.active[k := s], workers[k := worker])
  {
    hide Linked;
  }

  lemma ReportRelinks(c: W.Config, crew: Crew, e: W.Event)
    requires AllLinked(c, crew.q, crew.workers) && Possible(c, crew, Report(e)) && (e.Chunk? || e.Missing?)
    ensures Relinked(c, crew.q, Changed(crew.q, e), Staffed(crew.workers, Report(e)))
  {
    var k := SlotOf(e);
    TellLinks(c, crew.q, k, crew.workers[k].value, e);
    RelinkOne(c, crew.q, crew.workers, k, Changed(crew.q, e)[k], crew.workers[k]);
    hide Linked, Unheard;
    assert crew.workers[k := crew.workers[k]] == crew.workers;
  }

  lemma FinishRelinks(c: W.Config, crew: Crew, k: nat)
    requires AllLinked(c, crew.q, crew.workers) && Possible(c, crew, Report(W.Finished(k)))
    ensures Relinked(c, crew.q, Changed(crew.q, W.Finished(k)), Staffed(crew.workers, Report(W.Finished(k))))
  {
    hide Linked, Unheard;
    var slots, workers := Changed(crew.q, W.Finished(k)), Staffed(crew.workers, Report(W.Finished(k)));
    forall j | 0 <= j < |workers| ensures Linked(c, crew.q, slots[j], workers[j]) {
      var i := if j < k then j else j + 1;
      assert slots[j] == crew.q.active[i] && workers[j] == crew.workers[i];
    }
  }

  lemma DiscoverRelinks(c: W.Config, crew: Crew, k: nat, total: nat, q': W.State)
    requires AllLinked(c, crew.q, crew.workers) && Possible(c, crew, Report(W.Discovered(k, total)))
    requires crew.q.total.None? ==> |crew.q.active| <= 1
    requires q'.total == Some(total) && q'.informed == crew.q.informed
    ensures Relinked(c, q', Changed(crew.q, W.Discovered(k, total)), Staffed(crew.workers, Report(W.Discovered(k, total))))
  {
    DiscoveryLinks(c, crew.q, q', k, crew.workers[k].value, total);
    hide Linked, Unheard;
  }

  lemma SameRelinked(c: W.Config, q: W.State, q': W.State, slots: seq<W.Slot>, workers: seq<Option<D.State>>)
    requires Relinked(c, q, slots, workers) && q'.total == q.total && q'.informed == q.informed
    ensures Relinked(c, q', slots, workers)
  {
    hide Linked;
    forall k | 0 <= k < |workers| ensures Linked(c, q', slots[k], workers[k]) { LinkedSame(c, q, q', slots[k], slots[k], workers[k]); }
  }

  /** What a step makes of the links, before the orchestrator reacts. */
  lemma StepRelinks(c: W.Config, crew: Crew, step: Step, q': W.State)
    requires W.Sane(crew.q) && AllProvisioned(c, crew.q) && AllLinked(c, crew.q, crew.workers) && Possible(c, crew, step)
    requires EventOf(step).Some? && !step.Break? && q'.informed == crew.q.informed
    requires q'.total == if step.Report? && step.report.Discovered? then Some(step.report.total) else crew.q.total
    requires crew.q.total.None? ==> |crew.q.active| <= 1
    requires step.Answer? && crew.q.total.None? ==> step.worker.cached == {}
    ensures Relinked(c, q', Changed(crew.q, EventOf(step).value), Staffed(crew.workers, step))
  {
    var q := crew.q;
    hide W.Sane, AllProvisioned, Linked, BuiltFor, R.Begin, Relinked, Unheard;
    match step {
      case Answer(k, p, w) => {
        assert Linked(c, q, q.active[k], crew.workers[k]);
        AnswerLinks(c, q, k, p, w);
        RelinkOne(c, q, crew.workers, k, q.active[k].(worker := true, cached := |p.cached|), Some(R.Begin(p, w)));
        SameRelinked(c, q, q', Changed(q, EventOf(step).value), Staffed(crew.workers, step));
      }
      case Report(Discovered(k, total)) => { DiscoverRelinks(c, crew, k, total, q'); hide *; }
      case Report(report) => {
        hide AllLinked;
        OtherReports(c, crew, report);
        SameRelinked(c, q, q', Changed(q, report), Staffed(crew.workers, step));
      }
      case _ => { }
    }
  }

  lemma OtherReports(c: W.Config, crew: Crew, e: W.Event)
    requires AllLinked(c, crew.q, crew.workers) && Possible(c, crew, Report(e)) && !e.Discovered?
    ensures Relinked(c, crew.q, Changed(crew.q, e), Staffed(crew.workers, Report(e)))
  {
    hide AllLinked, Relinked;
    match e {
      case Finished(k) => { FinishRelinks(c, crew, k); hide *; }
      case Chunk(_) => { ReportRelinks(c, crew, e); hide *; }
      case Missing(_) => { ReportRelinks(c, crew, e); hide *; }
      case _ => { }
    }
  }

  lemma DiscoveryLinks(c: W.Config, q: W.State, q': W.State, k: nat, p: D.State, total: nat)
    requires k < |q.active| && Linked(c, q, q.active[k], Some(p)) && Unheard(q, q.active[k], p, W.Discovered(k, total))
    requires q'.total == Some(total) && q'.informed == q.informed
    ensures Linked(c, q', q.active[k], Some(p))
  {
    hide Sound;
  }

  /** Every step keeps the invariant: the orchestrator's own, and the links. */
  lemma StepKeeps(c: W.Config, crew: Crew, step: Step)
    requires CrewInv(c, crew) && Possible(c, crew, step)
    ensures CrewInv(c, After(c, crew, step))
  {
    if EventOf(step).None? {
      ActLinks(c, crew.q, crew.workers, step.k, step.event);
    } else {
      StepEnabled(c, crew, step);
      InvSizes(c, crew.q);
      var q, e := crew.q, EventOf(step).value;
      var q' := W.Happen(c, q, e);
      W.EventKeeps(c, q, e);
      EventEffect(c, q, e);
      NoneCached(c, q, e, step);
      hide W.Inv, W.Live, W.Sane, W.Enabled, W.Happen, AllProvisioned, Linked, Possible, Staffed, Changed, Relinked, Extends, BuiltFor;
      if q'.outcome.Pending? {
        StepRelinks(c, crew, step, q');
        Starts(c, q');
        LinkedAfter(c, q', q', Changed(q, e), Staffed(crew.workers, step));
      }
    }
  }

  lemma Starts(c: W.Config, q: W.State)
    requires W.Inv(c, q) && q.outcome.Pending?
    ensures W.SlotsStarted(q)
  {
    hide W.Balanced, W.Consecutive, W.Sane, W.SlotsStarted;
  }

  /** While the total is unknown, a loader that reports cached indexes makes the download fail. */
  lemma NoneCached(c: W.Config, q: W.State, e: W.Event, step: Step)
    requires W.Inv(c, q) && W.Sane(q) && W.Enabled(c, q, e) && 0 < c.discoveryLength <= c.windowSize && EventOf(step) == Some(e)
    ensures W.Happen(c, q, e).outcome.Pending? && step.Answer? && q.total.None? ==> step.worker.cached == {}
  {
    hide W.Live, W.Covered, W.Length;
    W.NoTotal(c, q);
  }

  lemma ActLinks(c: W.Config, q: W.State, workers: seq<Option<D.State>>, k: nat, e: R.Event)
    requires AllLinked(c, q, workers) && k < |workers| && workers[k].Some? && R.Enabled(workers[k].value, e) && Allowed(c, workers[k].value, e)
    ensures AllLinked(c, q, Staffed(workers, Act(k, e)))
  {
    ActKeeps(c, q, q.active[k], workers[k].value, e);
    hide Sound, Heard, R.Happen, R.Shape;
  }

  // ---- runs ----

  ghost predicate IsRun(c: W.Config, total: Option<nat>, crews: seq<Crew>, steps: seq<Step>) {
    && |crews| == |steps| + 1 && W.Accepts(c, total)
    && crews[0] == (var q := W.Begin(c, total); Crew(q, Sized([], |q.active|)))
    && forall k | 0 <= k < |steps| :: CrewInv(c, crews[k]) ==> Possible(c, crews[k], steps[k]) && crews[k + 1] == After(c, crews[k], steps[k])
  }

  lemma BeginLinks(c: W.Config, total: Option<nat>)
    requires W.Accepts(c, total)
    ensures var q := W.Begin(c, total); CrewInv(c, Crew(q, Sized([], |q.active|)))
  {
    W.BeginKeeps(c, total);
    var q := W.Begin(c, total);
    NextExtends(c, W.Fresh(c, total));
    hide W.Inv, W.Last;
    if q.outcome.Pending? {
      Starts(c, q);
      hide W.StartNext, AllProvisioned, Linked;
      LinkedAfter(c, W.Fresh(c, total), q, [], []);
    }
  }

  lemma {:induction false} RunKeeps(c: W.Config, total: Option<nat>, crews: seq<Crew>, steps: seq<Step>, n: nat)
    requires IsRun(c, total, crews, steps) && n < |crews|
    ensures CrewInv(c, crews[n])
  {
    hide CrewInv, Possible, W.Accepts, W.Begin, Sized;
    if n == 0 {
      BeginLinks(c, total);
    } else {
      RunKeeps(c, total, crews, steps, n - 1);
      StepKeeps(c, crews[n - 1], steps[n - 1]);
      hide After;
      assert crews[n - 1 + 1] == After(c, crews[n - 1], steps[n - 1]);
    }
  }

  /**
   * Refinement: the orchestrator's part of every run of the whole download is a run of the window machine. Nothing is assumed
   * of the range downloaders but what they do.
   */
  lemma {:induction false} RunProjects(c: W.Config, total: Option<nat>, crews: seq<Crew>, steps: seq<Step>, n: nat)
    returns (states: seq<W.State>, events: seq<W.Event>)
    requires IsRun(c, total, crews, steps) && n < |crews|
    ensures states != [] && W.IsRun(c, total, states, events) && states[|states| - 1] == crews[n].q
  {
    hide CrewInv, Possible, W.Accepts, W.Begin, W.Happen, W.Enabled, W.Sane, Staffed;
    if n == 0 {
      states, events := [W.Begin(c, total)], [];
    } else {
      states, events := RunProjects(c, total, crews, steps, n - 1);
      RunKeeps(c, total, crews, steps, n - 1);
      var crew, step := crews[n - 1], steps[n - 1];
      assert crews[n - 1 + 1] == After(c, crew, step);
      hide IsRun;
      if EventOf(step).Some? {
        StepEnabled(c, crew, step);
        WindowStep(c, total, states, events, EventOf(step).value);
        states, events := states + [W.Happen(c, crew.q, EventOf(step).value)], events + [EventOf(step).value];
      }
    }
  }

  lemma WindowStep(c: W.Config, total: Option<nat>, states: seq<W.State>, events: seq<W.Event>, e: W.Event)
    requires W.IsRun(c, total, states, events)
    requires var q := states[|states| - 1]; 0 < c.discoveryLength <= c.windowSize && W.Sane(q) && W.Enabled(c, q, e)
    ensures W.IsRun(c, total, states + [W.Happen(c, states[|states| - 1], e)], events + [e])
  {
    hide W.Accepts, W.Begin, W.Happen, W.Enabled, W.Sane;
  }

  /**
   * The whole download, with its workers: at a successful end with a known total, delivered, cached, missing and forgotten chunks
   * add up to the interval and the overrun. Nothing is forgotten if the total was known from the start, no worker falls back
   * to any author, or the discovery window has length 1.
   */
  lemma DownloadAddsUp(c: W.Config, total: Option<nat>, crews: seq<Crew>, steps: seq<Step>, n: nat)
    requires IsRun(c, total, crews, steps) && n < |crews|
    requires crews[n].q.outcome == W.Success && crews[n].q.total.Some? && crews[n].q.started != []
    ensures var q := crews[n].q;
            && q.count + q.missing + q.loaded + W.Forgotten(q)
                 == W.Last(c, q.total.value) - c.start + 1 + W.Overrun(c, q) + c.initial
            && 0 <= W.Forgotten(q) <= W.Allowance(c, total.Some?)
            && W.Overrun(c, q) >= 0 && (total.Some? || c.end.None? ==> W.Overrun(c, q) == 0)
  {
    var states, events := RunProjects(c, total, crews, steps, n);
    hide IsRun;
    W.SuccessTiles(c, total, states, events, |states| - 1, 0);
    hide W.IsRun, W.Forgotten, W.Overrun, W.Last;
  }

  // ---- a download that forgets ----

  ghost function Last(crews: seq<Crew>): Crew
    requires crews != []
  {
    crews[|crews| - 1]
  }

  lemma RunOn(c: W.Config, total: Option<nat>, crews: seq<Crew>, steps: seq<Step>, step: Step) returns (crews': seq<Crew>)
    requires crews != [] && IsRun(c, total, crews, steps) && Possible(c, Last(crews), step)
    ensures CrewInv(c, Last(crews)) && crews' == crews + [After(c, Last(crews), step)] && IsRun(c, total, crews', steps + [step])
  {
    hide CrewInv, Possible, After, W.Accepts, W.Begin, Sized;
    RunSize(c, total, crews, steps);
    RunKeeps(c, total, crews, steps, |crews| - 1);
    crews' := crews + [After(c, Last(crews), step)];
    RunSnoc(c, total, crews, steps, step);
  }

  lemma RunSnoc(c: W.Config, total: Option<nat>, crews: seq<Crew>, steps: seq<Step>, step: Step)
    requires crews != [] && IsRun(c, total, crews, steps) && CrewInv(c, Last(crews)) && Possible(c, Last(crews), step)
    ensures IsRun(c, total, crews + [After(c, Last(crews), step)], steps + [step])
  {
    hide CrewInv, Possible, After, W.Accepts, W.Begin, Sized;
    var crews', steps' := crews + [After(c, Last(crews), step)], steps + [step];
    forall k | 0 <= k < |steps'| && CrewInv(c, crews'[k])
      ensures Possible(c, crews'[k], steps'[k]) && crews'[k + 1] == After(c, crews'[k], steps'[k])
    {
      if k < |steps| { assert crews'[k] == crews[k] && steps'[k] == steps[k] && crews'[k + 1] == crews[k + 1]; }
    }
  }

  /** The only worker goes on to the end of its run, unheard. */
  lemma ActOn(c: W.Config, total: Option<nat>, crews: seq<Crew>, steps: seq<Step>, states: seq<D.State>, events: seq<R.Event>, m: nat)
    returns (crews': seq<Crew>, steps': seq<Step>)
    requires R.IsRun(states, events) && m < |states| && c.end == None
    requires crews != [] && IsRun(c, total, crews, steps) && Last(crews).q.outcome.Pending? && Last(crews).workers == [Some(states[m])]
    ensures crews' != [] && IsRun(c, total, crews', steps') && Last(crews') == Crew(Last(crews).q, [Some(states[|events|])])
    decreases |events| - m
  {
    hide IsRun, R.Happen, R.Enabled, R.Shape, CrewInv;
    if m == |events| {
      crews', steps' := crews, steps;
    } else {
      var step := Act(0, events[m]);
      assert R.Shape(states[m]) && R.Enabled(states[m], events[m]) && states[m + 1] == R.Happen(states[m], events[m]);
      crews' := RunOn(c, total, crews, steps, step);
      assert Last(crews') == Crew(Last(crews).q, [Some(states[m + 1])]);
      hide Possible, After;
      crews', steps' := ActOn(c, total, crews', steps + [step], states, events, m + 1);
    }
  }

  /** What the witness reports of its worker: the total, chunk 0, and the end. */
  lemma ReportOn(c: W.Config, crews: seq<Crew>, steps: seq<Step>, p: D.State) returns (crews': seq<Crew>, steps': seq<Step>)
    requires W.Accepts(c, None) && c.end == None && c.anyAuthor && c.discoveryLength >= 2
    requires crews != [] && IsRun(c, None, crews, steps)
    requires Last(crews) == Crew(W.TwoChunks(c, None, true, 0, W.Threshold(c.discoveryLength)), [Some(p)])
    requires p.finished && p.total == Some(2) && p.delivered == [0] && p.lost == []
    ensures crews' != [] && IsRun(c, None, crews', steps')
    ensures var q := Last(crews').q;
            q.outcome == W.Success && q.total == Some(2) && q.missing == 0 && q.count == 1 && W.Forgotten(q) == 1
  {
    hide IsRun, CrewInv, W.Accepts, W.Threshold, W.Forgotten, W.Discover, W.Deliver, W.Close, W.Enabled, W.Sane;
    W.Sized(c);
    W.TwoTold(c, W.Threshold(c.discoveryLength));
    W.TwoDelivered(c);
    W.TwoFinished(c);
    var told, got := W.TwoChunks(c, Some(2), true, 0, 1), W.TwoChunks(c, Some(2), true, 1, 1);
    crews' := RunOn(c, None, crews, steps, Report(W.Discovered(0, 2)));
    assert Last(crews') == Crew(told, [Some(p)]);
    crews' := RunOn(c, None, crews', steps + [Report(W.Discovered(0, 2))], Report(W.Chunk(0)));
    assert Last(crews') == Crew(got, [Some(p)]);
    var before := steps + [Report(W.Discovered(0, 2))] + [Report(W.Chunk(0))];
    crews' := RunOn(c, None, crews', before, Report(W.Finished(0)));
    steps' := before + [Report(W.Finished(0))];
    assert Last(crews').q == W.Close(c, got, 0);
  }

  /**
   * With the any-author fallback, an unknown total and a discovery window of two chunks or more, a download can end well, with
   * nothing missing, and short: whatever relays its first worker asks, there is a run in which it gets chunk 0 of two
   * and forgets the other.
   */
  lemma ForgottenDownload(c: W.Config, p: D.State) returns (crews: seq<Crew>, steps: seq<Step>)
    requires W.Accepts(c, None) && c.end == None && c.anyAuthor && c.discoveryLength >= 2
    requires var q := W.Begin(c, None); q.active != [] && BuiltFor(c, q, q.active[0], p) && p.cached == {}
    ensures crews != [] && IsRun(c, None, crews, steps)
    ensures var q := Last(crews).q;
            q.outcome == W.Success && q.total == Some(2) && q.missing == 0 && q.count == 1 && W.Forgotten(q) == 1
  {
    W.Sized(c);
    W.TwoBegin(c);
    var q := W.Begin(c, None);
    assert Sized([], |q.active|) == [None] && |p.cached| == 0;
    RunBegins(c);
    crews, steps := [Crew(q, [None])], [];
    hide W.Accepts, W.Begin, W.Threshold, W.Load, W.Enabled, W.Sane, R.Begin, R.Fresh, CrewInv, IsRun, W.Forgotten;
    var states, events := F.ForgottenIndex(p);
    crews := RunOn(c, None, crews, steps, Answer(0, p, F.EAGER));
    steps := [Answer(0, p, F.EAGER)];
    assert Last(crews) == Crew(W.TwoChunks(c, None, true, 0, W.Threshold(c.discoveryLength)), [Some(states[0])]);
    ForgottenRun(states, events);
    crews, steps := ActOn(c, None, crews, steps, states, events, 0);
    crews, steps := ReportOn(c, crews, steps, states[|events|]);
  }

  lemma ForgottenRun(states: seq<D.State>, events: seq<R.Event>)
    requires R.IsRun(states, events)
    ensures |states| == |events| + 1
  {
  }

  lemma RunBegins(c: W.Config)
    requires W.Accepts(c, None)
    ensures var q := W.Begin(c, None); IsRun(c, None, [Crew(q, Sized([], |q.active|))], [])
  {
    hide W.Accepts, W.Begin, Sized;
  }

  // ---- exactly which downloads ----

  /** A download that ended well, knowing the total, with chunks that nobody had, delivered or reported. */
  ghost predicate Forgets(c: W.Config, total: Option<nat>, crews: seq<Crew>, steps: seq<Step>) {
    && crews != [] && IsRun(c, total, crews, steps)
    && Last(crews).q.outcome == W.Success && Last(crews).q.total.Some? && W.Forgotten(Last(crews).q) > 0
  }

  /** A worker for the discovery window: one relay, asked for the whole window at once. */
  ghost function Scout(c: W.Config): D.State
    requires 0 < c.discoveryLength <= c.windowSize
  {
    D.State(0, c.discoveryLength - 1, c.windowSize - 1, c.discoveryLength - 1, None, false, c.discoveryLength, c.anyAuthor, {},
            [D.Relay({}, {}, false, 0)], D.Rebuilt(0, c.discoveryLength - 1, {}), {}, map[], {}, {}, [], true, false, [], [], [])
  }

  /** What a caller can check: without an end index, a download can forget chunks exactly in this configuration. */
  lemma ForgetsExactly(c: W.Config, total: Option<nat>)
    requires W.Accepts(c, total) && c.end == None
    ensures (exists crews, steps :: Forgets(c, total, crews, steps)) <==> total.None? && c.anyAuthor && c.discoveryLength >= 2
  {
    hide W.Forgotten, IsRun, CrewInv, W.Begin;
    if total.None? && c.anyAuthor && c.discoveryLength >= 2 {
      ScoutIsBuilt(c);
      var crews, steps := ForgottenDownload(c, Scout(c));
      assert Forgets(c, total, crews, steps);
    }
    forall crews, steps | Forgets(c, total, crews, steps) ensures total.None? && c.anyAuthor && c.discoveryLength >= 2 {
      ForgottenOnly(c, total, crews, steps);
    }
  }

  lemma ScoutIsBuilt(c: W.Config)
    requires W.Accepts(c, None) && c.end == None
    ensures var q := W.Begin(c, None); q.active != [] && BuiltFor(c, q, q.active[0], Scout(c)) && Scout(c).cached == {}
  {
    W.TwoBegin(c);
    R.RebuiltIs(0, c.discoveryLength - 1, {});
    hide D.Rebuilt, W.Begin, W.Threshold;
  }

  lemma ForgottenOnly(c: W.Config, total: Option<nat>, crews: seq<Crew>, steps: seq<Step>)
    requires Forgets(c, total, crews, steps)
    ensures total.None? && c.anyAuthor && c.discoveryLength >= 2
  {
    RunSize(c, total, crews, steps);
    var states, events := RunProjects(c, total, crews, steps, |crews| - 1);
    hide IsRun;
    W.SuccessTiles(c, total, states, events, |states| - 1, 0);
    hide W.IsRun, W.Forgotten, W.Overrun, W.Last;
  }

  lemma RunSize(c: W.Config, total: Option<nat>, crews: seq<Crew>, steps: seq<Step>)
    requires IsRun(c, total, crews, steps)
    ensures |crews| == |steps| + 1 && 0 < c.discoveryLength
  {
  }
}
