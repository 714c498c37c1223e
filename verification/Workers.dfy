/** A range downloader as the orchestrator of windows sees it: what it reports is what the orchestrator may count on. */
module Workers {
  import opened Basics
  import D = RangeDownload
  import R = RangeSafety
  import W = Windows

  /** A new range downloader as the orchestrator builds it for a slot; `cached` is what the loader answered. */
  ghost predicate BuiltFor(c: W.Config, q: W.State, s: W.Slot, p: D.State) {
    R.Fresh(p) && p.start == s.start && p.end == s.end && p.maxEnd == s.maxEnd && p.total == q.total && p.canFallBack == c.anyAuthor
  }

  /** What holds of such a downloader throughout its run. */
  ghost predicate Sound(p: D.State) {
    && R.Inv(p) && (forall i | i in p.cached :: p.start <= i <= p.end)
    && (p.total.Some? ==> p.end == Min(p.maxEnd, p.total.value - 1))
    && (p.total.None? ==> p.cached == {})
  }

  /** What the counts of its reports can be. */
  ghost predicate Bounded(p: D.State) {
    && |p.cached| + |p.delivered| + |p.lost| <= p.end - p.start + 1
    && p.start <= p.end
    && (p.total.None? ==> |p.cached| + |p.delivered| == 0 && |p.lost| <= 1 && !p.informed)
    && (p.total.Some? ==> p.end == Min(p.maxEnd, p.total.value - 1))
    && (p.finished && p.total.Some? ==> p.end - p.start + 1 - R.Allowance(p) <= |p.cached| + |p.delivered| + |p.lost|)
  }

  lemma WorkerBegins(p: D.State, w: D.World)
    requires R.Fresh(p)
    requires if p.total.Some? then p.end == Min(p.maxEnd, p.total.value - 1) else p.cached == {}
    ensures Sound(R.Begin(p, w)) && R.Fixed(p, R.Begin(p, w))
  {
    R.BeginKeeps(p, w);
    R.BeginFixed(p, w);
    FixedFits(p, R.Begin(p, w));
    hide R.Begin, R.Inv;
  }

  /** Every event of every run keeps it. */
  lemma WorkerSteps(p: D.State, e: R.Event)
    requires Sound(p) && R.Enabled(p, e)
    ensures R.Shape(p) && Sound(R.Happen(p, e)) && R.Fixed(p, R.Happen(p, e))
  {
    InvShape(p);
    R.EventKeeps(p, e);
    R.EventFixed(p, e);
    hide R.Inv, R.Happen;
    FixedFits(p, R.Happen(p, e));
  }

  lemma InvShape(p: D.State)
    requires R.Inv(p)
    ensures R.Core(p) && R.Shape(p)
  {
    hide R.Partition, R.Counted, R.Slots, R.AskedOnce, R.ReportedForGood, R.Provisional, R.Concluded, R.AllAlive;
  }

  lemma FixedFits(p: D.State, p': D.State)
    requires R.Fixed(p, p') && (forall i | i in p.cached :: p.start <= i <= p.end)
    requires if p.total.Some? then p.end == Min(p.maxEnd, p.total.value - 1) else p.cached == {}
    ensures forall i | i in p'.cached :: p'.start <= i <= p'.end
    ensures if p'.total.Some? then p'.end == Min(p'.maxEnd, p'.total.value - 1) else p'.cached == {}
  {
  }

  /**
   * In every run a range downloader accounts for at most its range, and before the total is known for nothing but index 0; a
   * finished one that learned the total accounts for all of it, but for the allowance of the any-author fallback.
   */
  lemma WorkerBounded(p: D.State)
    requires Sound(p)
    ensures Bounded(p)
  {
    InvShape(p);
    R.PartsBound(p);
    if p.finished && p.total.Some? { R.FinishedCounts(p); }
    assert R.CachedIn(p) == p.cached;
    R.InformedIsKnown(p);
    hide R.Inv, R.Core, R.Allowance;
  }

  /** What the orchestrator has heard of a downloader in state `p`: all of it, or any part, in any order of kinds. */
  ghost predicate Heard(c: W.Config, q: W.State, s: W.Slot, p: D.State) {
    && s.worker && s.start == p.start && s.maxEnd == p.maxEnd && p.canFallBack == c.anyAuthor
    && s.cached == |p.cached| && s.delivered <= |p.delivered| && s.missing <= |p.lost|
    && (q.total.None? ==> s.delivered == 0)
    && (q.total.Some? ==> p.total == q.total)
    && (q.informed || s.start > 0 ==> p.informed)
    && (!p.informed ==> p.scope == c.discoveryLength - 1)
    && (p.total.Some? && c.end.Some? ==> c.end.value < p.total.value)
  }

  /** What the downloader did and the orchestrator has not heard of. */
  ghost predicate Unheard(q: W.State, s: W.Slot, p: D.State, e: W.Event) {
    match e
    case Discovered(_, total) => q.total.None? && p.total == Some(total)
    case Chunk(_) => q.total == p.total && s.delivered < |p.delivered|
    case Missing(_) => q.total == p.total && s.missing < |p.lost|
    case Finished(_) => q.total == p.total && s.delivered == |p.delivered| && s.missing == |p.lost| && p.finished
    case _ => false
  }

  /** Which slot a worker's event is about. */
  ghost function SlotOf(e: W.Event): nat {
    match e
    case Loaded(k, _) => k
    case Chunk(k) => k
    case Missing(k) => k
    case Discovered(k, _) => k
    case Finished(k) => k
    case Broken => 0
  }

  /** Everything a downloader has done and the orchestrator has not heard of is a step the orchestrator may take. */
  lemma ReportsEnabled(c: W.Config, q: W.State, p: D.State, e: W.Event)
    requires 0 < c.discoveryLength && W.Sane(q) && q.outcome.Pending? && SlotOf(e) < |q.active| && Sound(p)
    requires Heard(c, q, q.active[SlotOf(e)], p) && Unheard(q, q.active[SlotOf(e)], p, e)
    ensures W.Enabled(c, q, e)
  {
    WorkerBounded(p);
    hide Sound;
  }
}
