/** When the orchestrator starts a range, counts on, fails and ends: each exactly, at every event and over every run. */
module WindowLaws {
  import opened Basics
  import opened Windows

  /** The threshold is the least number of covered indexes that is at least 30 percent of the length. */
  lemma ThresholdIs(length: nat)
    ensures 10 * Threshold(length) >= 3 * length && forall n: nat | 10 * n >= 3 * length :: Threshold(length) <= n
  {
  }

  // ---- failing ----

  /** A missing index: counted, and the range goes on; or the download fails, if the caller asked for that. */
  lemma MissingCounts(c: Config, q: State, k: nat)
    requires q.outcome.Pending? && k < |q.active|
    ensures var q' := Miss(c, q, k);
            if c.abortOnFailure then q'.outcome == Failure && q'.active == []
            else
              var s, s' := q.active[k], q'.active[k];
              && q' == q.(missing := q.missing + 1, active := q'.active)
              && |q'.active| == |q.active| && (forall j | 0 <= j < |q.active| && j != k :: q'.active[j] == q.active[j])
              && s' == s.(missing := s.missing + 1)
  {
  }

  /**
   * What a download fails of: an error, a chunk beyond the interval, more cached indexes than the caller announced and
   * were delivered, or a missing index if the caller asked for that.
   */
  ghost predicate Fatal(c: Config, q: State, e: Event) {
    match e
    case Broken => true
    case Chunk(_) => q.total.Some? && c.start + q.count > Last(c, q.total.value)
    case Loaded(_, cached) => cached > q.count - q.loaded
    case Missing(_) => c.abortOnFailure
    case _ => false
  }

  lemma FailsExactly(c: Config, q: State, e: Event)
    requires Inv(c, q) && Enabled(c, q, e)
    ensures 0 < c.discoveryLength <= c.windowSize && Sane(q)
    ensures Happen(c, q, e).outcome == Failure <==> Fatal(c, q, e)
  {
    OnlyOne(c, q);
    hide Inv, Fatal, Happen, Enabled, Sane;
    FailsWhen(c, q, e);
  }

  lemma FailsWhen(c: Config, q: State, e: Event)
    requires 0 < c.discoveryLength <= c.windowSize && Sane(q) && Enabled(c, q, e)
    ensures Happen(c, q, e).outcome == Failure <==> Fatal(c, q, e)
  {
    hide Threshold, StartNext, Closable, Covered;
    match e {
      case Loaded(k, cached) => { if q.loaded + cached <= q.count { CoveredStays(c, WithCached(q, k, cached), k); } }
      case Chunk(k) => { CoveredStays(c, WithChunk(q, k), k); }
      case Missing(k) => { }
      case Discovered(k, total) => { CoveredStays(c, q.(total := Some(total)), k); }
      case Finished(k) => { NextStays(c, q.(active := q.active[..k] + q.active[k + 1..], closed := q.closed + [q.active[k]])); }
      case Broken => { }
    }
  }

  lemma NextStays(c: Config, q: State)
    requires 0 < c.discoveryLength <= c.windowSize
    ensures StartNext(c, q).outcome == q.outcome && StartNext(c, q).total == q.total
  {
    hide Last, Threshold;
  }

  lemma CoveredStays(c: Config, q: State, k: nat)
    requires 0 < c.discoveryLength <= c.windowSize && (q.outcome.Pending? ==> k < |q.active| && Length(q.total, q.active[k]) >= 0)
    ensures Covered(c, q, k).outcome == q.outcome
  {
    hide StartNext, Length, Threshold;
    if q.outcome.Pending? { NextStays(c, Noted(c, q, k)); }
  }

  /** Every failure has one of these reasons, and every such event makes the download fail. */
  lemma {:induction false} RunFails(c: Config, total: Option<nat>, states: seq<State>, events: seq<Event>, n: nat)
    requires IsRun(c, total, states, events) && n < |states|
    ensures states[n].outcome == Failure <==> exists m: nat | m < n :: Fatal(c, states[m], events[m])
  {
    hide Fatal, Inv, Length, Closable, Accepts;
    if n == 0 {
      BeginKeeps(c, total);
      BeginPending(c, total);
    } else {
      RunFails(c, total, states, events, n - 1);
      RunKeeps(c, total, states, events, n - 1);
      var q, e := states[n - 1], events[n - 1];
      AcceptedSizes(c, total);
      assert Sane(q) && Enabled(c, q, e) && states[n - 1 + 1] == Happen(c, q, e);
      FailsExactly(c, q, e);
      assert q.outcome.Pending?;
      hide IsRun, Happen, Enabled;
      if m: nat :| m < n && Fatal(c, states[m], events[m]) { assert m == n - 1; }
    }
  }

  lemma AcceptedSizes(c: Config, total: Option<nat>)
    requires Accepts(c, total)
    ensures 0 < c.discoveryLength <= c.windowSize
  {
  }

  lemma BeginPending(c: Config, total: Option<nat>)
    requires Accepts(c, total)
    ensures Begin(c, total).outcome != Failure
  {
    NextStays(c, Fresh(c, total));
    hide StartNext, Last;
  }

  // ---- starting ----

  /** Workers tell their coverage: what the orchestrator compares is what they have, with 30 percent of their length. */
  ghost predicate UpToDate(q: State) {
    forall s | s in q.active && s.worker :: s.covered == s.cached + s.delivered && Length(q.total, s) >= 0 && s.needed == Threshold(Length(q.total, s))
  }

  /** A second range may begin once the given one is covered so far. */
  ghost predicate ThirtyPercent(q: State, s: Slot) { s.worker && 10 * (s.cached + s.delivered) >= 3 * Length(q.total, s) }

  ghost predicate SomethingLeft(c: Config, q: State) { q.total.Some? && q.next <= Last(c, q.total.value) }

  /** The next range: a window of the full size, or what is left. */
  ghost function NextRange(c: Config, q: State): (nat, nat)
    requires SomethingLeft(c, q) && c.windowSize > 0
  {
    var last := Last(c, q.total.value);
    (q.next, Min(q.next + c.windowSize - 1, last))
  }

  /** One more range is started, without a worker yet, or none. */
  ghost predicate Grew(c: Config, q: State, q': State, more: bool)
    requires more ==> SomethingLeft(c, q) && c.windowSize > 0
  {
    q'.total == q.total &&
    if more then
      && q'.started == q.started + [NextRange(c, q)] && q'.next == NextRange(c, q).1 + 1
      && |q'.active| == |q.active| + 1 && q'.active[|q.active|].start == q.next && !q'.active[|q.active|].worker
    else q'.started == q.started && |q'.active| == |q.active| && q'.next == q.next
  }

  lemma NextStarts(c: Config, q: State)
    requires 0 < c.discoveryLength <= c.windowSize && q.outcome.Pending? && (q.total.None? ==> q.first)
    ensures Grew(c, q, StartNext(c, q), |q.active| < 2 && SomethingLeft(c, q))
    ensures forall j | 0 <= j < |q.active| :: StartNext(c, q).active[j] == q.active[j]
  {
    hide Threshold;
  }

  /** A worker's news starts another range exactly when fewer than two are active, something is left, and 30 percent are covered. */
  lemma NewsStarts(c: Config, q: State, k: nat)
    requires 0 < c.discoveryLength <= c.windowSize && q.outcome.Pending? && k < |q.active| && Length(q.total, q.active[k]) >= 0
    requires q.active[k].worker && (q.total.None? ==> q.first)
    ensures Grew(c, q, Covered(c, q, k), |q.active| < 2 && SomethingLeft(c, q) && ThirtyPercent(q, q.active[k]))
  {
    ThresholdIs(Length(q.total, q.active[k]));
    NextStarts(c, Noted(c, q, k));
    hide StartNext, Length, Last, Threshold;
  }

  lemma FirstStarted(c: Config, q: State)
    requires Live(c, q) && q.active != []
    ensures q.first && 0 < c.discoveryLength <= c.windowSize && Sane(q)
  {
    assert (q.active[0].start, q.active[0].maxEnd) in q.started;
    hide Balanced, Last, Length, Sane;
  }

  /** The state in which a worker's news is weighed. */
  ghost function Told(q: State, e: Event): State
    requires match e case Loaded(k, _) => k < |q.active| case Chunk(k) => k < |q.active| case _ => true
  {
    match e
    case Loaded(k, cached) => WithCached(q, k, cached)
    case Chunk(k) => WithChunk(q, k)
    case Discovered(_, total) => q.(total := Some(total))
    case _ => q
  }

  lemma StartsExactly(c: Config, q: State, e: Event)
    requires Inv(c, q) && Enabled(c, q, e) && (e.Loaded? || e.Chunk? || e.Discovered?) && !Fatal(c, q, e)
    ensures 0 < c.discoveryLength <= c.windowSize && Sane(q) && e.k < |q.active|
    ensures var t := Told(q, e);
            Grew(c, t, Happen(c, q, e), |q.active| < 2 && SomethingLeft(c, t) && ThirtyPercent(t, t.active[e.k]))
  {
    FirstStarted(c, q);
    hide Inv, Live, Threshold, Covered, Last;
    NewsStarts(c, Told(q, e), e.k);
    hide Length;
  }

  /** The state without the slot whose worker finished. */
  ghost function Rest(q: State, k: nat): State
    requires k < |q.active|
  {
    q.(active := q.active[..k] + q.active[k + 1..], closed := q.closed + [q.active[k]])
  }

  /**
   * The end of a range starts another one exactly when something is left and the other range, if there is one, is covered to
   * 30 percent; and it ends the download, well, exactly when neither another range is active nor anything left.
   */
  lemma FinishStarts(c: Config, q: State, k: nat)
    requires Inv(c, q) && UpToDate(q) && Enabled(c, q, Finished(k))
    ensures 0 < c.discoveryLength <= c.windowSize && k < |q.active| <= 2
    ensures var r, q' := Rest(q, k), Close(c, q, k);
            && (q'.outcome == Success <==> |q.active| == 1 && !SomethingLeft(c, q))
            && (q'.outcome == Pending <==> q'.outcome != Success)
            && (q'.outcome == Pending ==> Grew(c, r, q', SomethingLeft(c, r) && (r.active == [] || ThirtyPercent(r, r.active[0]))))
  {
    FirstStarted(c, q);
    var r := Rest(q, k);
    if r.active != [] {
      assert r.active[0] in q.active;
      if r.active[0].worker { ThresholdIs(Length(r.total, r.active[0])); }
    }
    NextStarts(c, r);
    NextStays(c, r);
    hide Inv, Live, Threshold, Length, Last, StartNext;
  }

  lemma UpToDateNext(c: Config, q: State)
    requires 0 < c.discoveryLength <= c.windowSize && UpToDate(q)
    ensures UpToDate(StartNext(c, q))
  {
    var q' := StartNext(c, q);
    forall s | s in q'.active && s.worker ensures s in q.active { }
    NextStays(c, q);
    hide StartNext, Threshold, Length;
  }

  lemma UpToDateCovered(c: Config, q: State, k: nat)
    requires 0 < c.discoveryLength <= c.windowSize && k < |q.active| && Length(q.total, q.active[k]) >= 0
    requires forall j | 0 <= j < |q.active| && j != k && q.active[j].worker ::
               var s := q.active[j]; s.covered == s.cached + s.delivered && Length(q.total, s) >= 0 && s.needed == Threshold(Length(q.total, s))
    ensures UpToDate(Covered(c, q, k)) || !q.outcome.Pending?
  {
    hide StartNext, Threshold, Length;
    if q.outcome.Pending? {
      var n := Noted(c, q, k);
      forall s | s in n.active && s.worker
        ensures s.covered == s.cached + s.delivered && Length(n.total, s) >= 0 && s.needed == Threshold(Length(n.total, s))
      {
        var j :| 0 <= j < |n.active| && n.active[j] == s;
        if j == k { SameLength(q.total, q.active[k], s); }
      }
      UpToDateNext(c, n);
    }
  }

  lemma SameLength(total: Option<nat>, s: Slot, s': Slot)
    requires s'.start == s.start && s'.end == s.end && s'.maxEnd == s.maxEnd
    ensures Length(total, s') == Length(total, s)
  {
  }

  /** The slots that the news is not about. */
  lemma OthersUpToDate(q: State, k: nat, t: State)
    requires UpToDate(q) && k < |q.active| && |t.active| == |q.active| && (t.total == q.total || |q.active| <= 1)
    requires forall j | 0 <= j < |q.active| && j != k :: t.active[j] == q.active[j]
    requires SameRange(q.active[k], t.active[k]) && Length(t.total, q.active[k]) >= 0
    ensures Length(t.total, t.active[k]) >= 0
    ensures forall j | 0 <= j < |t.active| && j != k && t.active[j].worker ::
              var s := t.active[j]; s.covered == s.cached + s.delivered && Length(t.total, s) >= 0 && s.needed == Threshold(Length(t.total, s))
  {
    SameLength(t.total, q.active[k], t.active[k]);
    hide Length, Threshold;
    forall j | 0 <= j < |t.active| && j != k ensures t.active[j] in q.active { assert t.active[j] == q.active[j]; }
  }

  lemma EventUpToDate(c: Config, q: State, e: Event)
    requires Inv(c, q) && UpToDate(q) && Enabled(c, q, e)
    ensures 0 < c.discoveryLength <= c.windowSize && Sane(q) && UpToDate(Happen(c, q, e))
  {
    FirstStarted(c, q);
    OnlyOne(c, q);
    hide Inv, Live, StartNext, Covered, Last, Closable, Threshold, UpToDate;
    match e {
      case Loaded(k, cached) => { NewsUpToDate(c, q, e, k); }
      case Chunk(k) => { NewsUpToDate(c, q, e, k); }
      case Missing(k) => { MissingUpToDate(c, q, k); }
      case Discovered(k, total) => { NewsUpToDate(c, q, e, k); }
      case Finished(k) => { FinishUpToDate(c, q, k); }
      case Broken => { NoneActive(Happen(c, q, e)); }
    }
  }

  lemma NoneActive(q: State)
    ensures q.active == [] ==> UpToDate(q)
  {
  }

  lemma NewsUpToDate(c: Config, q: State, e: Event, k: nat)
    requires 0 < c.discoveryLength <= c.windowSize && Sane(q) && UpToDate(q) && Enabled(c, q, e) && (q.total.None? ==> |q.active| <= 1)
    requires (e.Loaded? || e.Chunk? || e.Discovered?) && e.k == k
    ensures UpToDate(Happen(c, q, e))
  {
    var t := Told(q, e);
    assert Length(t.total, q.active[k]) >= 0;
    OthersUpToDate(q, k, t);
    UpToDateCovered(c, t, k);
    NoneActive(Finish(t, Failure));
    NoneActive(Finish(q, Failure));
    hide UpToDate, Covered, Threshold, Length, Last, Closable;
    if e.Loaded? { NoneActive(Finish(q.(loaded := q.loaded + e.cached), Failure)); }
  }

  lemma MissingUpToDate(c: Config, q: State, k: nat)
    requires UpToDate(q) && k < |q.active| && q.outcome.Pending?
    ensures UpToDate(Miss(c, q, k))
  {
    var t := WithMissing(q, k);
    forall s | s in t.active && s.worker
      ensures s.covered == s.cached + s.delivered && Length(t.total, s) >= 0 && s.needed == Threshold(Length(t.total, s))
    {
      var j :| 0 <= j < |t.active| && t.active[j] == s;
      assert q.active[j] in q.active;
      SameLength(q.total, q.active[j], s);
    }
    NoneActive(Finish(t, Failure));
    hide Length, Threshold;
  }

  lemma FinishUpToDate(c: Config, q: State, k: nat)
    requires 0 < c.discoveryLength <= c.windowSize && UpToDate(q) && k < |q.active|
    ensures UpToDate(Close(c, q, k))
  {
    var r := Rest(q, k);
    forall s | s in r.active ensures s in q.active { }
    UpToDateNext(c, r);
    NoneActive(StartNext(c, r).(active := [], outcome := Success));
    hide StartNext, Length, Threshold, Last;
  }

  lemma {:induction false} RunUpToDate(c: Config, total: Option<nat>, states: seq<State>, events: seq<Event>, n: nat)
    requires IsRun(c, total, states, events) && n < |states|
    ensures UpToDate(states[n]) && Inv(c, states[n])
  {
    hide Inv, UpToDate, Length, Closable, Accepts, Happen, Sane;
    RunKeeps(c, total, states, events, n);
    if n == 0 {
      BeginUpToDate(c, total);
    } else {
      RunUpToDate(c, total, states, events, n - 1);
      EventUpToDate(c, states[n - 1], events[n - 1]);
      assert states[n - 1 + 1] == Happen(c, states[n - 1], events[n - 1]);
    }
  }

  lemma BeginUpToDate(c: Config, total: Option<nat>)
    requires Accepts(c, total)
    ensures UpToDate(Begin(c, total))
  {
    UpToDateNext(c, Fresh(c, total));
    hide StartNext, Last;
  }

  // ---- the windows ----

  /** Every range is a window of the full size, but the last, which takes what is left. */
  ghost predicate FullWindows(c: Config, q: State) {
    forall k | 0 <= k < |q.started| ::
      q.started[k].1 + 1 == q.started[k].0 + c.windowSize
      || (q.total.Some? && q.started[k].1 == Last(c, q.total.value) && q.started[k].1 < q.started[k].0 + c.windowSize)
  }

  lemma GrewFull(c: Config, q: State, q': State, more: bool)
    requires c.windowSize > 0 && FullWindows(c, q) && (more ==> SomethingLeft(c, q)) && Grew(c, q, q', more)
    ensures FullWindows(c, q')
  {
  }

  lemma SameWindows(c: Config, q: State, q': State)
    requires FullWindows(c, q) && q'.started == q.started && (q'.total == q.total || q.total.None?)
    ensures FullWindows(c, q')
  {
  }

  lemma EventFull(c: Config, q: State, e: Event)
    requires Inv(c, q) && UpToDate(q) && FullWindows(c, q) && Enabled(c, q, e)
    ensures 0 < c.discoveryLength <= c.windowSize && Sane(q) && FullWindows(c, Happen(c, q, e))
  {
    FirstStarted(c, q);
    OnlyOne(c, q);
    var q' := Happen(c, q, e);
    if Fatal(c, q, e) {
      FatalKeeps(c, q, e);
      hide Happen, FullWindows;
      SameWindows(c, q, q');
    } else if e.Finished? {
      FinishStarts(c, q, e.k);
      hide FullWindows;
      SameWindows(c, q, Rest(q, e.k));
      FinishFull(c, q, e.k);
    } else if e.Missing? {
      SameWindows(c, q, q');
    } else if !e.Broken? {
      StartsExactly(c, q, e);
      var t := Told(q, e);
      hide Happen, FullWindows, ThirtyPercent, Grew;
      SameWindows(c, q, t);
      GrewFull(c, t, q', |q.active| < 2 && SomethingLeft(c, t) && ThirtyPercent(t, t.active[e.k]));
    }
  }

  lemma FatalKeeps(c: Config, q: State, e: Event)
    requires 0 < c.discoveryLength <= c.windowSize && Sane(q) && Enabled(c, q, e) && Fatal(c, q, e)
    ensures var q' := Happen(c, q, e); q'.started == q.started && q'.total == q.total
  {
    hide Length, Threshold, StartNext, Last;
  }

  lemma FinishFull(c: Config, q: State, k: nat)
    requires Inv(c, q) && UpToDate(q) && Enabled(c, q, Finished(k)) && FullWindows(c, Rest(q, k))
    ensures FullWindows(c, Close(c, q, k))
  {
    FirstStarted(c, q);
    FinishStarts(c, q, k);
    var r, q' := Rest(q, k), Close(c, q, k);
    if q'.outcome == Success {
      ClosedSame(c, q, k);
      SameWindows(c, r, q');
    } else {
      GrewFull(c, r, q', SomethingLeft(c, r) && (r.active == [] || ThirtyPercent(r, r.active[0])));
    }
    hide FullWindows, Inv, Close, Grew, ThirtyPercent;
  }

  lemma ClosedSame(c: Config, q: State, k: nat)
    requires 0 < c.discoveryLength <= c.windowSize && k < |q.active| && q.outcome.Pending? && q.first
    ensures Close(c, q, k).outcome == Success ==> Close(c, q, k).started == q.started && Close(c, q, k).total == q.total
  {
    NextStarts(c, Rest(q, k));
    hide StartNext, Threshold, Last;
  }

  /** Over every run, ranges are windows of the full size but the last. */
  lemma {:induction false} RunFull(c: Config, total: Option<nat>, states: seq<State>, events: seq<Event>, n: nat)
    requires IsRun(c, total, states, events) && n < |states|
    ensures FullWindows(c, states[n])
  {
    hide Inv, FullWindows, UpToDate, Closable, Happen, Sane;
    if n == 0 {
      BeginFull(c, total);
    } else {
      RunFull(c, total, states, events, n - 1);
      RunUpToDate(c, total, states, events, n - 1);
      EventFull(c, states[n - 1], events[n - 1]);
      assert states[n - 1 + 1] == Happen(c, states[n - 1], events[n - 1]);
    }
  }

  lemma BeginFull(c: Config, total: Option<nat>)
    requires Accepts(c, total)
    ensures FullWindows(c, Begin(c, total))
  {
    hide Threshold;
  }

  /** The beginning: done at once if everything was there before, else one range, of the next window or of the discovery window. */
  lemma BeginIs(c: Config, total: Option<nat>)
    requires Accepts(c, total)
    ensures var q := Begin(c, total);
            && q.total == total && q.count == c.initial && q.loaded == q.missing == 0
            && (q.outcome == Success <==> total.Some? && c.initial == Last(c, total.value) - c.start + 1)
            && (q.outcome == Success || q.outcome == Pending)
            && (q.outcome == Success ==> q.started == [] && q.active == [])
            && (q.outcome == Pending ==> |q.started| == 1 && |q.active| == 1 && !q.active[0].worker && q.active[0].start == c.start)
            && (q.outcome == Pending && total.None? ==> q.started[0] == (0, c.windowSize - 1) && q.active[0].end == c.discoveryLength - 1)
            && (q.outcome == Pending && total.Some? ==>
                  && q.started[0] == NextRange(c, Fresh(c, total)) && q.active[0].end == q.started[0].1 == q.active[0].maxEnd)
  {
    hide Threshold;
  }
}
