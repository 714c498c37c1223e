/** Downloading a whole interval of chunks in bounded windows, at most two at a time. */
module Windows {
  import opened Basics

  const MIN_RANGE_LENGTH := 256
  const MAX_RANGE_LENGTH := 4096

  /** `anyAuthor` is the any-author option together with the presence of an author filter. */
  datatype Config = Config(start: nat, end: Option<nat>, windowSize: nat, discoveryLength: nat, initial: nat, abortOnFailure: bool,
                           anyAuthor: bool)

  /** The coverage at which the next range may start: 30 percent, rounded up. */
  function Threshold(length: nat): nat { (3 * length + 9) / 10 }

  /** A started range; `cached`, `delivered` and `missing` count the indexes its worker has accounted for. */
  datatype Slot = Slot(start: nat, end: nat, maxEnd: nat, worker: bool, covered: nat, needed: nat,
                       cached: nat, delivered: nat, missing: nat)

  datatype Outcome = Pending | Success | Failure

  /**
   * `informed` says that the total was known from the start. `started` and `closed` are histories: the ranges that were
   * started, and the slots whose workers finished.
   */
  datatype State = State(total: Option<nat>, informed: bool, count: nat, loaded: nat, missing: nat, next: nat, active: seq<Slot>, first: bool,
                         outcome: Outcome, started: seq<(nat, nat)>, closed: seq<Slot>)

  /** What the constructor accepts; an unknown total comes without downloaded chunks. */
  ghost predicate Accepts(c: Config, total: Option<nat>) {
    && 0 < c.discoveryLength <= c.windowSize && MIN_RANGE_LENGTH <= c.windowSize <= MAX_RANGE_LENGTH
    && match total
       case None => c.start == 0 && c.initial == 0
       case Some(t) => c.start < t && (c.end.Some? ==> c.start <= c.end.value < t) && c.initial <= Last(c, t) - c.start + 1
  }

  /** Last index to download once the total is known. */
  function Last(c: Config, total: nat): int {
    if c.end.Some? then Min(c.end.value, total - 1) else total - 1
  }

  /** A range reaches to its end, or, begun without a total, as far as the total lets it. */
  function SlotEnd(total: Option<nat>, s: Slot): int {
    if total.None? then s.end else Min(s.maxEnd, total.value - 1)
  }

  function Length(total: Option<nat>, s: Slot): int { SlotEnd(total, s) - s.start + 1 }

  // ---- steps ----

  function Fresh(c: Config, total: Option<nat>): State {
    State(total, total.Some?, c.initial, 0, 0, c.start, [], false, Pending, [], [])
  }

  function Finish(q: State, outcome: Outcome): State {
    if q.outcome.Pending? then q.(active := [], outcome := outcome) else q
  }

  function Open(c: Config, q: State, start: nat, end: nat, maxEnd: nat): State
    requires start <= end
  {
    var slot := Slot(start, end, maxEnd, false, 0, Threshold(end - start + 1), 0, 0, 0);
    q.(active := q.active + [slot], first := true, next := maxEnd + 1, started := q.started + [(start, maxEnd)])
  }

  function StartNext(c: Config, q: State): State
    requires 0 < c.discoveryLength <= c.windowSize
  {
    if !q.outcome.Pending? || |q.active| >= 2 then q
    else if q.total.None? then
      if q.first then q else Open(c, q, 0, c.discoveryLength - 1, c.windowSize - 1)
    else
      var last := Last(c, q.total.value);
      if q.next > last then q
      else
        var end := q.next + Min(c.windowSize, last - q.next + 1) - 1;
        Open(c, q, q.next, end, end)
  }

  function Begin(c: Config, total: Option<nat>): State
    requires Accepts(c, total)
  {
    var q := Fresh(c, total);
    if total.Some? && c.initial == Last(c, total.value) - c.start + 1 then Finish(q, Success) else StartNext(c, q)
  }

  /** The coverage of a slot is brought up to date. */
  function Noted(c: Config, q: State, k: nat): State
    requires k < |q.active| && Length(q.total, q.active[k]) >= 0
  {
    var s := q.active[k];
    q.(active := q.active[k := s.(covered := s.cached + s.delivered, needed := Threshold(Length(q.total, s)))])
  }

  /** A worker tells its coverage. */
  function Covered(c: Config, q: State, k: nat): State
    requires 0 < c.discoveryLength <= c.windowSize && (q.outcome.Pending? ==> k < |q.active| && Length(q.total, q.active[k]) >= 0)
  {
    if !q.outcome.Pending? then q
    else
      var q' := Noted(c, q, k);
      if q'.active[k].covered >= q'.active[k].needed then StartNext(c, q') else q'
  }

  function WithCached(q: State, k: nat, cached: nat): State
    requires k < |q.active|
  {
    q.(loaded := q.loaded + cached, active := q.active[k := q.active[k].(worker := true, cached := cached)])
  }

  function WithMissing(q: State, k: nat): State
    requires k < |q.active|
  {
    q.(missing := q.missing + 1, active := q.active[k := q.active[k].(missing := q.active[k].missing + 1)])
  }

  function WithChunk(q: State, k: nat): State
    requires k < |q.active|
  {
    q.(count := q.count + 1, active := q.active[k := q.active[k].(delivered := q.active[k].delivered + 1)])
  }

  /** The loader returned distinct indexes of the range; the worker begins. */
  function Load(c: Config, q: State, k: nat, cached: nat): State
    requires 0 < c.discoveryLength <= c.windowSize && k < |q.active| && Length(q.total, q.active[k]) >= 0
  {
    if q.loaded + cached > q.count then Finish(q.(loaded := q.loaded + cached), Failure) else Covered(c, WithCached(q, k, cached), k)
  }

  function Deliver(c: Config, q: State, k: nat): State
    requires 0 < c.discoveryLength <= c.windowSize && k < |q.active| && Length(q.total, q.active[k]) >= 0
  {
    var q' := WithChunk(q, k);
    if q.total.Some? && q'.count > Last(c, q.total.value) - c.start + 1 then Finish(q', Failure) else Covered(c, q', k)
  }

  function Miss(c: Config, q: State, k: nat): State
    requires k < |q.active|
  {
    var q' := WithMissing(q, k);
    if c.abortOnFailure then Finish(q', Failure) else q'
  }

  function Discover(c: Config, q: State, k: nat, total: nat): State
    requires 0 < c.discoveryLength <= c.windowSize && k < |q.active| && Length(Some(total), q.active[k]) >= 0
  {
    Covered(c, q.(total := Some(total)), k)
  }

  /** A worker finished its range. */
  function Close(c: Config, q: State, k: nat): State
    requires 0 < c.discoveryLength <= c.windowSize && k < |q.active|
  {
    var rest := q.(active := q.active[..k] + q.active[k + 1..], closed := q.closed + [q.active[k]]);
    var q' := if rest.active == [] || (rest.active[0].worker && rest.active[0].covered >= rest.active[0].needed) then StartNext(c, rest) else rest;
    if q'.active == [] && (q'.total.None? || q'.next > Last(c, q'.total.value)) then Finish(q', Success) else q'
  }

  datatype Event =
    | Loaded(k: nat, cached: nat)
    | Chunk(k: nat)
    | Missing(k: nat)
    | Discovered(k: nat, total: nat)
    | Finished(k: nat)
    | Broken

  /** Indexes that a slot's worker has accounted for. */
  function Settled(s: Slot): nat { s.cached + s.delivered + s.missing }

  /**
   * How many indexes of its range a worker may leave unaccounted for: none if it knew the total when it began or never
   * falls back to any author, and otherwise at most those after 0 of the discovery window.
   */
  ghost function Slack(c: Config, q: State, s: Slot): int {
    if s.start > 0 then 0 else Allowance(c, q.informed)
  }

  ghost function Allowance(c: Config, informed: bool): int {
    if informed || !c.anyAuthor then 0 else c.discoveryLength - 1
  }

  /**
   * What workers do: they begin once loaded, account for each index of their range at most once, and finish, when the total
   * is known, with every index accounted for but for what their slack allows. Before any chunk is delivered the total is known.
   */
  ghost predicate Enabled(c: Config, q: State, e: Event) {
    && q.outcome.Pending?
    && match e
       case Loaded(k, cached) => k < |q.active| && !q.active[k].worker && cached <= Length(q.total, q.active[k])
       case Chunk(k) => q.total.Some? && k < |q.active| && q.active[k].worker && Settled(q.active[k]) < Length(q.total, q.active[k])
       case Missing(k) =>
         && k < |q.active| && q.active[k].worker && Settled(q.active[k]) < Length(q.total, q.active[k])
         && (q.total.None? ==> q.active[k].missing == 0)
       case Discovered(k, total) =>
         && q.total.None? && k < |q.active| && q.active[k].worker && q.active[k].delivered == 0 && total > 0
         && (c.end.Some? ==> c.end.value < total)
       case Finished(k) =>
         && k < |q.active| && q.active[k].worker
         && (q.total.Some? ==> Closable(c, q, q.active[k]))
       case Broken => true
  }

  /** How a worker's counts stand when it finishes. */
  ghost predicate Closable(c: Config, q: State, s: Slot) {
    Settled(s) <= Length(q.total, s) <= Settled(s) + Slack(c, q, s)
  }

  ghost function Happen(c: Config, q: State, e: Event): State
    requires 0 < c.discoveryLength <= c.windowSize && Sane(q) && Enabled(c, q, e)
  {
    match e
    case Loaded(k, cached) => Load(c, q, k, cached)
    case Chunk(k) => Deliver(c, q, k)
    case Missing(k) => Miss(c, q, k)
    case Discovered(k, total) => Discover(c, q, k, total)
    case Finished(k) => Close(c, q, k)
    case Broken => Finish(q, Failure)
  }

  // ---- sums over slots ----

  /** What is added up over slots: a count, the length of the range, what the worker did not account for, or one for a
   * range from index 0. */
  datatype Measure = Cached | Delivered | Missed | Span(total: Option<nat>) | Gap(total: Option<nat>) | Leading

  function Amount(m: Measure, s: Slot): int {
    match m
    case Cached => s.cached
    case Delivered => s.delivered
    case Missed => s.missing
    case Span(total) => Length(total, s)
    case Gap(total) => Length(total, s) - Settled(s)
    case Leading => if s.start == 0 then 1 else 0
  }

  ghost function Sum(slots: seq<Slot>, m: Measure): int {
    if slots == [] then 0 else Amount(m, slots[0]) + Sum(slots[1..], m)
  }

  lemma {:induction false} SumConcat(a: seq<Slot>, b: seq<Slot>, m: Measure)
    ensures Sum(a + b, m) == Sum(a, m) + Sum(b, m)
  {
    if a == [] {
      assert a + b == b;
    } else {
      assert (a + b)[1..] == a[1..] + b;
      SumConcat(a[1..], b, m);
    }
  }

  lemma SumAround(slots: seq<Slot>, k: nat, m: Measure)
    requires k < |slots|
    ensures Sum(slots, m) == Sum(slots[..k] + slots[k + 1..], m) + Amount(m, slots[k])
  {
    SumOne(slots[k], m);
    hide Sum;
    var a, b, c := slots[..k], [slots[k]], slots[k + 1..];
    assert slots == a + (b + c);
    SumConcat(a, b + c, m);
    SumConcat(b, c, m);
    SumConcat(a, c, m);
  }

  lemma SumOne(s: Slot, m: Measure)
    ensures Sum([s], m) == Amount(m, s)
  {
    assert [s][1..] == [];
  }

  lemma SumUpdate(slots: seq<Slot>, k: nat, s: Slot, m: Measure)
    requires k < |slots|
    ensures Sum(slots[k := s], m) == Sum(slots, m) - Amount(m, slots[k]) + Amount(m, s)
  {
    SumAround(slots, k, m);
    SumAround(slots[k := s], k, m);
    assert slots[k := s][..k] + slots[k := s][k + 1..] == slots[..k] + slots[k + 1..];
  }

  /** Sums over all slots ever opened, while the run goes on. */
  ghost function Total(q: State, m: Measure): int { Sum(q.closed, m) + Sum(q.active, m) }

  // ---- the invariant ----

  ghost predicate Sane(q: State) {
    && |q.active| <= 2 && (q.informed ==> q.total.Some?)
    && (forall k | 0 <= k < |q.active| :: Length(q.total, q.active[k]) > 0)
    && (q.total.None? ==> forall k | 0 <= k < |q.active| :: q.active[k].start == 0)
  }

  /** Ranges are started in order, each right after the one before, from the requested start. */
  ghost predicate Consecutive(c: Config, q: State) {
    && (forall k | 0 <= k < |q.started| :: q.started[k].0 <= q.started[k].1 < q.next)
    && (forall k | 0 < k < |q.started| :: q.started[k].0 == q.started[k - 1].1 + 1)
    && (q.started != [] ==> q.started[0].0 == c.start && q.started[|q.started| - 1].1 + 1 == q.next)
    && (q.started == [] ==> q.next == c.start)
    && (q.total.Some? ==> forall k | 0 <= k < |q.started| :: q.started[k].0 <= Last(c, q.total.value))
    && (forall k | 0 < k < |q.started| :: q.total.Some? && q.started[k].1 <= Last(c, q.total.value))
    && (q.informed ==> forall k | 0 <= k < |q.started| :: q.total.Some? && q.started[k].1 <= Last(c, q.total.value))
    && (q.first <==> q.started != [])
    && (q.total.None? ==> |q.started| <= 1)
    && (q.total.None? ==> |q.active| <= |q.started|)
  }

  /** How many indexes have been handed out to ranges; a discovery window may reach beyond the end index. */
  ghost function HandedOut(c: Config, q: State): int
    requires q.total.Some?
  {
    Min(q.next, q.total.value) - c.start
  }

  /** Every counter is the sum over the slots, and the slots' lengths add up to what was handed out. */
  ghost predicate Balanced(c: Config, q: State) {
    && q.count == c.initial + Total(q, Delivered)
    && q.loaded == Total(q, Cached)
    && q.missing == Total(q, Missed)
    && (q.total.Some? ==> Total(q, Span(q.total)) == HandedOut(c, q))
    && (q.total.Some? ==> forall k | 0 <= k < |q.closed| :: Closable(c, q, q.closed[k]))
    && (q.total.None? ==> q.closed == [] && q.count == 0 && q.loaded == 0)
    && Total(q, Leading) <= if q.started == [] then 0 else 1
  }

  ghost predicate SlotsStarted(q: State) {
    && (forall k | 0 <= k < |q.active| :: (q.active[k].start, q.active[k].maxEnd) in q.started)
    && (forall j, k | 0 <= j < k < |q.active| :: q.active[j].start != q.active[k].start)
    && (forall k | 0 <= k < |q.active| :: q.active[k].end <= q.active[k].maxEnd && (!q.active[k].worker ==> Settled(q.active[k]) == 0))
  }

  ghost predicate Configured(c: Config, total: Option<nat>) {
    && 0 < c.discoveryLength <= c.windowSize
    && match total
       case None => c.start == 0 && c.initial == 0
       case Some(t) => c.start <= Last(c, t)
  }

  ghost predicate Live(c: Config, q: State) {
    && Configured(c, q.total) && Sane(q) && Consecutive(c, q) && SlotsStarted(q) && Balanced(c, q)
    && q.outcome.Pending? && (c.abortOnFailure ==> q.missing == 0)
    && (q.total.Some? ==> q.count <= Last(c, q.total.value) - c.start + 1)
  }

  /** How far ranges reach beyond the interval that was asked for. */
  ghost function Overrun(c: Config, q: State): int
    requires q.total.Some?
  {
    HandedOut(c, q) - (Last(c, q.total.value) - c.start + 1)
  }

  /** The indexes that finished workers neither had, delivered nor reported. */
  ghost function Forgotten(q: State): int { Sum(q.closed, Gap(q.total)) }

  /** What a successful end means, when the total is known. */
  ghost predicate Accounted(c: Config, q: State)
    requires q.total.Some?
  {
    var last := Last(c, q.total.value);
    && Consecutive(c, q) && (c.abortOnFailure ==> q.missing == 0)
    && 0 <= Forgotten(q) <= Allowance(c, q.informed)
    && q.count <= last - c.start + 1
    && if q.started == [] then q.count == last - c.start + 1 && q.missing == 0
       else q.next > last && q.count + q.missing + q.loaded + Forgotten(q) == HandedOut(c, q) + c.initial
  }

  ghost predicate Inv(c: Config, q: State) {
    match q.outcome
    case Pending => Live(c, q) && q.active != []
    case Success => q.active == [] && (q.total.Some? ==> Accounted(c, q))
    case Failure => q.active == []
  }

  // ---- every step keeps it ----

  lemma OpenSums(q: State, s: Slot, m: Measure)
    ensures Total(q.(active := q.active + [s]), m) == Total(q, m) + Amount(m, s)
  {
    SumConcat(q.active, [s], m);
    SumOne(s, m);
  }

  lemma OpenBalanced(c: Config, q: State, start: nat, end: nat, maxEnd: nat)
    requires Live(c, q) && start == q.next && start <= end <= maxEnd
    requires q.total.Some? ==> end == maxEnd <= Last(c, q.total.value)
    ensures Balanced(c, Open(c, q, start, end, maxEnd))
  {
    var s := Slot(start, end, maxEnd, false, 0, Threshold(end - start + 1), 0, 0, 0);
    OpenSums(q, s, Delivered);
    OpenSums(q, s, Cached);
    OpenSums(q, s, Missed);
    OpenSums(q, s, Span(q.total));
    OpenSums(q, s, Leading);
    hide Sum;
  }

  lemma OpenKeeps(c: Config, q: State, start: nat, end: nat, maxEnd: nat)
    requires Live(c, q) && |q.active| < 2 && start == q.next && start <= end <= maxEnd
    requires q.total.Some? ==> end == maxEnd <= Last(c, q.total.value)
    requires q.total.None? ==> q.started == []
    ensures Live(c, Open(c, q, start, end, maxEnd))
  {
    OpenBalanced(c, q, start, end, maxEnd);
    OpenConsecutive(c, q, start, end, maxEnd);
    OpenSlots(c, q, start, end, maxEnd);
    hide Balanced, Consecutive, SlotsStarted, Sum;
  }

  lemma OpenConsecutive(c: Config, q: State, start: nat, end: nat, maxEnd: nat)
    requires Configured(c, q.total) && (q.informed ==> q.total.Some?) && Consecutive(c, q) && |q.active| < 2 && start == q.next && start <= end <= maxEnd
    requires q.total.Some? ==> end == maxEnd <= Last(c, q.total.value)
    requires q.total.None? ==> q.started == []
    ensures Consecutive(c, Open(c, q, start, end, maxEnd))
  {
    hide Last;
  }

  lemma OpenSlots(c: Config, q: State, start: nat, end: nat, maxEnd: nat)
    requires Consecutive(c, q) && SlotsStarted(q) && start == q.next && start <= end <= maxEnd
    ensures SlotsStarted(Open(c, q, start, end, maxEnd))
  {
    var q' := Open(c, q, start, end, maxEnd);
    forall k | 0 <= k < |q'.active| ensures (q'.active[k].start, q'.active[k].maxEnd) in q'.started {
      if k == |q.active| { assert q'.started[|q.started|] == (start, maxEnd); }
    }
    forall k | 0 <= k < |q.active| ensures q.active[k].start < q.next {
      assert (q.active[k].start, q.active[k].maxEnd) in q.started;
    }
    hide Consecutive;
  }

  lemma StartNextKeeps(c: Config, q: State)
    requires Live(c, q)
    ensures var q' := StartNext(c, q);
            Live(c, q') && q.active <= q'.active && q'.total == q.total
            && (q'.active == [] && q'.total.Some? ==> q'.next > Last(c, q'.total.value))
  {
    hide Balanced, Consecutive, SlotsStarted, Sane, Last, Length;
    if |q.active| < 2 {
      if q.total.None? { FirstStarts(c, q); } else { KnownStarts(c, q); }
    }
    hide Live, Configured;
  }

  lemma FirstStarts(c: Config, q: State)
    requires Live(c, q) && |q.active| < 2 && q.total.None?
    ensures Live(c, StartNext(c, q))
  {
    NothingStarted(c, q);
    hide Balanced, Consecutive, SlotsStarted, Sane, Last, Length;
    if !q.first { OpenKeeps(c, q, 0, c.discoveryLength - 1, c.windowSize - 1); }
    hide Live;
  }

  lemma KnownStarts(c: Config, q: State)
    requires Live(c, q) && |q.active| < 2 && q.total.Some?
    ensures Live(c, StartNext(c, q))
  {
    hide Balanced, Consecutive, SlotsStarted, Sane, Length, Last;
    if q.next <= Last(c, q.total.value) {
      var end := q.next + Min(c.windowSize, Last(c, q.total.value) - q.next + 1) - 1;
      OpenKeeps(c, q, q.next, end, end);
    }
    hide Live;
  }

  lemma NothingStarted(c: Config, q: State)
    requires Consecutive(c, q)
    ensures q.first <==> q.started != []
    ensures q.started == [] ==> q.next == c.start
  {
  }

  /** The same range with other counts. */
  ghost predicate SameRange(s: Slot, s': Slot) { s'.start == s.start && s'.end == s.end && s'.maxEnd == s.maxEnd }

  lemma UpdateSums(q: State, k: nat, s: Slot, m: Measure)
    requires k < |q.active|
    ensures Total(q.(active := q.active[k := s]), m) == Total(q, m) - Amount(m, q.active[k]) + Amount(m, s)
  {
    SumUpdate(q.active, k, s, m);
  }

  /** Changing counts of one slot keeps everything, if the totals change alike. */
  lemma UpdateKeeps(c: Config, q: State, k: nat, s: Slot, count: nat, loaded: nat, missing: nat)
    requires Live(c, q) && k < |q.active| && SameRange(q.active[k], s) && (!s.worker ==> Settled(s) == 0)
    requires count - q.count == s.delivered - q.active[k].delivered
    requires loaded - q.loaded == s.cached - q.active[k].cached
    requires missing - q.missing == s.missing - q.active[k].missing
    requires c.abortOnFailure ==> missing == 0
    requires q.total.None? ==> count == 0 && loaded == 0
    requires q.total.Some? ==> count <= Last(c, q.total.value) - c.start + 1
    ensures Live(c, q.(active := q.active[k := s], count := count, loaded := loaded, missing := missing))
  {
    UpdateBalanced(c, q, k, s, count, loaded, missing);
    UpdateRest(c, q, k, s);
    var q' := q.(active := q.active[k := s], count := count, loaded := loaded, missing := missing);
    hide Configured, Balanced, Last;
    assert Sane(q') && Consecutive(c, q') && SlotsStarted(q');
  }

  lemma UpdateBalanced(c: Config, q: State, k: nat, s: Slot, count: nat, loaded: nat, missing: nat)
    requires Balanced(c, q) && k < |q.active| && SameRange(q.active[k], s)
    requires count - q.count == s.delivered - q.active[k].delivered
    requires loaded - q.loaded == s.cached - q.active[k].cached
    requires missing - q.missing == s.missing - q.active[k].missing
    requires q.total.None? ==> count == 0 && loaded == 0
    ensures Balanced(c, q.(active := q.active[k := s], count := count, loaded := loaded, missing := missing))
  {
    UpdateSums(q, k, s, Delivered);
    UpdateSums(q, k, s, Cached);
    UpdateSums(q, k, s, Missed);
    UpdateSums(q, k, s, Span(q.total));
    UpdateSums(q, k, s, Leading);
    hide Sum, Last;
  }

  lemma UpdateRest(c: Config, q: State, k: nat, s: Slot)
    requires Sane(q) && SlotsStarted(q) && k < |q.active| && SameRange(q.active[k], s) && (!s.worker ==> Settled(s) == 0)
    ensures var q' := q.(active := q.active[k := s]); Sane(q') && SlotsStarted(q')
  {
    var q' := q.(active := q.active[k := s]);
    forall j | 0 <= j < |q'.active| ensures SameRange(q.active[j], q'.active[j]) && (j != k ==> q'.active[j] == q.active[j]) { }
    assert Sane(q');
    hide Length;
  }

  lemma CoveredKeeps(c: Config, q: State, k: nat)
    requires Live(c, q) && k < |q.active|
    ensures Inv(c, Covered(c, q, k)) && Covered(c, q, k).outcome.Pending?
  {
    NotedKeeps(c, q, k);
    SlotSane(c, q, k);
    LivePending(c, q);
    hide Live, Configured, Length;
    var q' := Noted(c, q, k);
    assert |q'.active| > 0;
    StartNextKeeps(c, q');
    LivePending(c, q');
    LivePending(c, StartNext(c, q'));
    hide StartNext, Noted, Accounted;
  }

  lemma NotedKeeps(c: Config, q: State, k: nat)
    requires Live(c, q) && k < |q.active|
    ensures Length(q.total, q.active[k]) >= 0 && Live(c, Noted(c, q, k))
  {
    hide Live, Length;
    SlotSane(c, q, k);
    NoTotal(c, q);
    var s := q.active[k];
    var now := s.(covered := s.cached + s.delivered, needed := Threshold(Length(q.total, s)));
    UpdateKeeps(c, q, k, now, q.count, q.loaded, q.missing);
    assert q.active[k := now] == Noted(c, q, k).active;
  }

  lemma SlotSane(c: Config, q: State, k: nat)
    requires Live(c, q) && k < |q.active|
    ensures Length(q.total, q.active[k]) >= 0 && (!q.active[k].worker ==> Settled(q.active[k]) == 0)
  {
    hide Settled, Balanced, Consecutive, Configured;
  }

  lemma LivePending(c: Config, q: State)
    ensures Live(c, q) ==> q.outcome.Pending?
  {
    hide Balanced, Consecutive, SlotsStarted, Sane, Configured;
  }

  lemma DiscoverKeeps(c: Config, q: State, k: nat, total: nat)
    requires Inv(c, q) && Enabled(c, q, Discovered(k, total))
    ensures Live(c, q.(total := Some(total)))
  {
    var q' := q.(total := Some(total));
    assert |q.active| == 1 && |q.started| == 1;
    assert q.active[0].start == 0 && (q.active[0].start, q.active[0].maxEnd) in q.started;
    assert q.started[0] == (0, q.active[0].maxEnd);
    assert Sum(q.active, Span(q'.total)) == Length(q'.total, q.active[0]) by { assert q.active[1..] == []; }
    assert Balanced(c, q') by { hide Consecutive, SlotsStarted; }
    hide Balanced;
  }

  lemma CloseSums(q: State, k: nat, m: Measure)
    requires k < |q.active|
    ensures Total(q.(active := q.active[..k] + q.active[k + 1..], closed := q.closed + [q.active[k]]), m) == Total(q, m)
  {
    SumAround(q.active, k, m);
    SumConcat(q.closed, [q.active[k]], m);
    SumOne(q.active[k], m);
  }

  lemma CloseKeeps(c: Config, q: State, k: nat)
    requires Live(c, q) && k < |q.active| && q.total.Some? && Closable(c, q, q.active[k])
    ensures Live(c, q.(active := q.active[..k] + q.active[k + 1..], closed := q.closed + [q.active[k]]))
  {
    CloseBalanced(c, q, k);
    CloseRest(q, k);
    hide Configured, Balanced, Last, Sane, SlotsStarted;
  }

  lemma CloseBalanced(c: Config, q: State, k: nat)
    requires Balanced(c, q) && k < |q.active| && q.total.Some? && Closable(c, q, q.active[k])
    ensures Balanced(c, q.(active := q.active[..k] + q.active[k + 1..], closed := q.closed + [q.active[k]]))
  {
    CloseSums(q, k, Delivered);
    CloseSums(q, k, Cached);
    CloseSums(q, k, Missed);
    CloseSums(q, k, Span(q.total));
    CloseSums(q, k, Leading);
    hide Sum, Last, Settled;
  }

  lemma CloseRest(q: State, k: nat)
    requires Sane(q) && SlotsStarted(q) && k < |q.active|
    ensures var q' := q.(active := q.active[..k] + q.active[k + 1..], closed := q.closed + [q.active[k]]); Sane(q') && SlotsStarted(q')
  {
    var q' := q.(active := q.active[..k] + q.active[k + 1..], closed := q.closed + [q.active[k]]);
    forall j | 0 <= j < |q'.active| ensures q'.active[j] == q.active[if j < k then j else j + 1] { }
    hide Length, Settled;
  }

  lemma {:induction false} SettledSum(slots: seq<Slot>, total: Option<nat>)
    ensures Sum(slots, Delivered) + Sum(slots, Cached) + Sum(slots, Missed) + Sum(slots, Gap(total)) == Sum(slots, Span(total))
  {
    hide Length;
    if slots != [] { SettledSum(slots[1..], total); }
  }

  lemma {:induction false} GapSum(slots: seq<Slot>, total: Option<nat>, slack: nat)
    requires forall k | 0 <= k < |slots| ::
               Settled(slots[k]) <= Length(total, slots[k]) <= Settled(slots[k]) + if slots[k].start == 0 then slack else 0
    ensures 0 <= Sum(slots, Gap(total)) <= slack * Sum(slots, Leading)
  {
    hide Length, Settled;
    if slots != [] {
      assert forall k | 0 <= k < |slots[1..]| :: slots[1..][k] == slots[k + 1];
      GapSum(slots[1..], total, slack);
      Distributes(slack, Amount(Leading, slots[0]), Sum(slots[1..], Leading));
    }
  }

  lemma Distributes(a: int, b: int, c: int)
    ensures a * (b + c) == a * b + a * c
  {
  }

  lemma SuccessForgets(c: Config, q: State)
    requires Inv(c, q) && q.outcome == Success && q.total.Some?
    ensures 0 <= Forgotten(q) <= Allowance(c, q.informed)
  {
  }

  lemma ClosedGap(c: Config, q: State)
    requires Balanced(c, q) && q.total.Some? && c.discoveryLength > 0
    ensures 0 <= Forgotten(q) <= Allowance(c, q.informed)
  {
    hide HandedOut, Sum, Settled, Length;
    LeadingSum(q.active);
    LeadingSum(q.closed);
    GapSum(q.closed, q.total, Allowance(c, q.informed));
    AtMostOnce(Allowance(c, q.informed), Sum(q.closed, Leading));
  }

  lemma AtMostOnce(a: nat, b: nat)
    requires b <= 1
    ensures a * b <= a
  {
  }

  lemma {:induction false} LeadingSum(slots: seq<Slot>)
    ensures Sum(slots, Leading) >= 0
  {
    if slots != [] { LeadingSum(slots[1..]); }
  }

  /** When the last range has closed and none is left to start, everything is accounted for. */
  lemma EndIsAccounted(c: Config, q: State)
    requires Live(c, q) && q.active == [] && q.total.Some? && q.next > Last(c, q.total.value)
    ensures Accounted(c, Finish(q, Success))
  {
    SettledSum(q.closed, q.total);
    ClosedGap(c, q);
    assert q.started != [] && Consecutive(c, Finish(q, Success));
    hide Sum, Settled, Length, Consecutive;
  }

  lemma FinishedKeeps(c: Config, q: State, k: nat)
    requires Inv(c, q) && Enabled(c, q, Finished(k))
    ensures Inv(c, Close(c, q, k))
  {
    var rest := q.(active := q.active[..k] + q.active[k + 1..], closed := q.closed + [q.active[k]]);
    if q.total.None? {
      assert rest.active == [] && q.first by { hide Balanced; }
    } else {
      CloseKeeps(c, q, k);
      StartNextKeeps(c, rest);
      MayEnd(c, rest);
      MayEnd(c, StartNext(c, rest));
    }
    hide Live, Accounted, StartNext, Settled, Length, Enabled;
  }

  lemma MayEnd(c: Config, q: State)
    requires q.total.Some?
    ensures Live(c, q) && (q.active == [] ==> q.next > Last(c, q.total.value))
        ==> Inv(c, if q.active == [] && q.next > Last(c, q.total.value) then Finish(q, Success) else q)
  {
    if Live(c, q) {
      LivePending(c, q);
      if q.active == [] && q.next > Last(c, q.total.value) { EndIsAccounted(c, q); }
    }
    hide Live, Accounted;
  }

  lemma EventKeeps(c: Config, q: State, e: Event)
    requires Inv(c, q) && Enabled(c, q, e)
    ensures Inv(c, Happen(c, q, e))
  {
    hide Consecutive, SlotsStarted, Balanced;
    match e {
      case Loaded(k, cached) => { LoadedKeeps(c, q, k, cached); }
      case Chunk(k) => { ChunkKeeps(c, q, k); }
      case Missing(k) => { MissingKeeps(c, q, k); }
      case Discovered(k, total) => {
        DiscoverKeeps(c, q, k, total);
        CoveredKeeps(c, q.(total := Some(total)), k);
      }
      case Finished(k) => { FinishedKeeps(c, q, k); }
      case Broken => { }
    }
  }

  lemma LoadedKeeps(c: Config, q: State, k: nat, cached: nat)
    requires Inv(c, q) && Enabled(c, q, Loaded(k, cached))
    ensures Inv(c, Load(c, q, k, cached))
  {
    if q.loaded + cached <= q.count {
      CachedLive(c, q, k, cached);
      SlotSane(c, q, k);
      hide Live, Length;
      CoveredKeeps(c, WithCached(q, k, cached), k);
      hide WithCached, Covered;
    }
  }

  lemma CachedLive(c: Config, q: State, k: nat, cached: nat)
    requires Live(c, q) && k < |q.active| && !q.active[k].worker && q.loaded + cached <= q.count
    ensures Live(c, WithCached(q, k, cached))
  {
    hide Live, Length;
    SlotSane(c, q, k);
    NoTotal(c, q);
    UpdateKeeps(c, q, k, q.active[k].(worker := true, cached := cached), q.count, q.loaded + cached, q.missing);
  }

  lemma NoTotal(c: Config, q: State)
    requires Live(c, q)
    ensures q.total.None? ==> q.count == 0 && q.loaded == 0
    ensures c.abortOnFailure ==> q.missing == 0
    ensures q.total.Some? ==> q.count <= Last(c, q.total.value) - c.start + 1
  {
    hide Consecutive, SlotsStarted, Sane, Total, Length;
  }

  lemma ChunkKeeps(c: Config, q: State, k: nat)
    requires Inv(c, q) && Enabled(c, q, Chunk(k))
    ensures Inv(c, Deliver(c, q, k))
  {
    SlotSane(c, q, k);
    if q.count + 1 <= Last(c, q.total.value) - c.start + 1 {
      ChunkLive(c, q, k);
      hide Live, Length, Last;
      CoveredKeeps(c, WithChunk(q, k), k);
      hide WithChunk, Covered;
    }
  }

  lemma ChunkLive(c: Config, q: State, k: nat)
    requires Live(c, q) && q.total.Some? && k < |q.active| && q.active[k].worker
    requires q.count + 1 <= Last(c, q.total.value) - c.start + 1
    ensures Live(c, WithChunk(q, k))
  {
    hide Live, Length, Last;
    NoTotal(c, q);
    UpdateKeeps(c, q, k, q.active[k].(delivered := q.active[k].delivered + 1), q.count + 1, q.loaded, q.missing);
  }

  lemma MissingKeeps(c: Config, q: State, k: nat)
    requires Inv(c, q) && Enabled(c, q, Missing(k))
    ensures Inv(c, Miss(c, q, k))
  {
    if !c.abortOnFailure {
      MissingLive(c, q, k);
      LivePending(c, WithMissing(q, k));
    }
    hide Live, Length;
  }

  lemma MissingLive(c: Config, q: State, k: nat)
    requires Live(c, q) && k < |q.active| && q.active[k].worker && !c.abortOnFailure
    ensures Live(c, WithMissing(q, k))
  {
    hide Live, Length;
    NoTotal(c, q);
    UpdateKeeps(c, q, k, q.active[k].(missing := q.active[k].missing + 1), q.count, q.loaded, q.missing + 1);
  }

  lemma BeginKeeps(c: Config, total: Option<nat>)
    requires Accepts(c, total)
    ensures Inv(c, Begin(c, total))
  {
    hide Live, Accounted, StartNext;
    var q := Fresh(c, total);
    FreshLive(c, total);
    StartNextKeeps(c, q);
    LivePending(c, StartNext(c, q));
    if total.Some? && c.initial == Last(c, total.value) - c.start + 1 {
      FreshDone(c, total);
    } else {
      FirstRange(c, total);
    }
  }

  lemma FreshDone(c: Config, total: Option<nat>)
    requires Accepts(c, total) && total.Some? && c.initial == Last(c, total.value) - c.start + 1
    ensures Accounted(c, Finish(Fresh(c, total), Success))
  {
  }

  lemma FirstRange(c: Config, total: Option<nat>)
    requires Accepts(c, total)
    ensures StartNext(c, Fresh(c, total)).active != []
  {
  }

  lemma FreshLive(c: Config, total: Option<nat>)
    requires Accepts(c, total)
    ensures Live(c, Fresh(c, total))
  {
    hide Balanced, Consecutive, SlotsStarted, Sane, Last;
    var q := Fresh(c, total);
    AcceptsConfigured(c, total);
    EmptyBalanced(c, q);
    EmptyRest(c, q);
  }

  lemma AcceptsConfigured(c: Config, total: Option<nat>)
    requires Accepts(c, total)
    ensures Configured(c, total)
    ensures match total case None => c.initial == 0 case Some(t) => c.start <= Last(c, t)
  {
  }

  lemma EmptyRest(c: Config, q: State)
    requires q.active == [] && q.started == [] && !q.first && q.next == c.start && (q.informed ==> q.total.Some?)
    ensures Consecutive(c, q) && SlotsStarted(q) && Sane(q)
  {
    hide Last, Length, Settled;
  }

  lemma EmptyBalanced(c: Config, q: State)
    requires q.closed == [] && q.active == [] && q.count == c.initial && q.loaded == q.missing == 0 && q.next == c.start
    requires match q.total case None => c.initial == 0 case Some(t) => c.start <= Last(c, t)
    ensures Balanced(c, q)
  {
    EmptyTotal(q, Delivered);
    EmptyTotal(q, Cached);
    EmptyTotal(q, Missed);
    EmptyTotal(q, Span(q.total));
    hide Total, Length, Last, Settled;
  }

  lemma EmptyTotal(q: State, m: Measure)
    requires q.closed == [] && q.active == []
    ensures Total(q, m) == 0
  {
  }

  // ---- runs ----

  ghost predicate IsRun(c: Config, total: Option<nat>, states: seq<State>, events: seq<Event>) {
    && |states| == |events| + 1 && Accepts(c, total) && states[0] == Begin(c, total)
    && forall k | 0 <= k < |events| ::
         Sane(states[k]) && Enabled(c, states[k], events[k]) && states[k + 1] == Happen(c, states[k], events[k])
  }

  lemma {:induction false} RunKeeps(c: Config, total: Option<nat>, states: seq<State>, events: seq<Event>, n: nat)
    requires IsRun(c, total, states, events) && n < |states|
    ensures Inv(c, states[n])
  {
    if n == 0 {
      BeginKeeps(c, total);
    } else {
      RunKeeps(c, total, states, events, n - 1);
      EventKeeps(c, states[n - 1], events[n - 1]);
      hide Inv, Happen;
      assert states[n] == Happen(c, states[n - 1], events[n - 1]);
    }
  }

  /** The started range that contains an index. */
  ghost predicate InRange(q: State, k: nat, i: nat)
    requires k < |q.started|
  {
    q.started[k].0 <= i <= q.started[k].1
  }

  lemma {:induction false} RangeOf(c: Config, q: State, i: nat, n: nat) returns (k: nat)
    requires Consecutive(c, q) && 0 < n <= |q.started| && c.start <= i <= q.started[n - 1].1
    ensures k < n && InRange(q, k, i)
    decreases n
  {
    if q.started[n - 1].0 <= i { k := n - 1; } else { k := RangeOf(c, q, i, n - 1); }
  }

  lemma {:induction false} Ordered(c: Config, q: State, j: nat, k: nat)
    requires Consecutive(c, q) && j < k < |q.started|
    ensures q.started[j].1 < q.started[k].0
    decreases k
  {
    if j + 1 < k { Ordered(c, q, j, k - 1); }
  }

  lemma {:induction false} RunInformed(c: Config, total: Option<nat>, states: seq<State>, events: seq<Event>, n: nat)
    requires IsRun(c, total, states, events) && n < |states|
    ensures states[n].informed == total.Some?
  {
    hide Happen, Sane, Enabled, StartNext, Last;
    if n > 0 {
      RunInformed(c, total, states, events, n - 1);
      assert states[n - 1 + 1] == Happen(c, states[n - 1], events[n - 1]);
      hide IsRun, Accepts;
      InformedStays(c, states[n - 1], events[n - 1]);
    } else {
      NextInformed(c, Fresh(c, total));
    }
  }

  lemma InformedStays(c: Config, q: State, e: Event)
    requires 0 < c.discoveryLength <= c.windowSize && Sane(q) && Enabled(c, q, e)
    ensures Happen(c, q, e).informed == q.informed
  {
    hide Last, Threshold, StartNext, Covered;
    match e {
      case Loaded(k, cached) => { CoveredInformed(c, WithCached(q, k, cached), k); }
      case Chunk(k) => { CoveredInformed(c, WithChunk(q, k), k); }
      case Missing(k) => { }
      case Discovered(k, total) => { CoveredInformed(c, q.(total := Some(total)), k); }
      case Finished(k) => { NextInformed(c, q.(active := q.active[..k] + q.active[k + 1..], closed := q.closed + [q.active[k]])); }
      case Broken => { }
    }
  }

  lemma NextInformed(c: Config, q: State)
    requires 0 < c.discoveryLength <= c.windowSize
    ensures StartNext(c, q).informed == q.informed
  {
    hide Last, Threshold;
  }

  lemma CoveredInformed(c: Config, q: State, k: nat)
    requires 0 < c.discoveryLength <= c.windowSize && (q.outcome.Pending? ==> k < |q.active| && Length(q.total, q.active[k]) >= 0)
    ensures Covered(c, q, k).informed == q.informed
  {
    hide StartNext, Length, Threshold;
    if q.outcome.Pending? { NextInformed(c, Noted(c, q, k)); }
  }

  /** Only a discovery window that passes the end index reaches beyond what was asked for. */
  lemma OverrunIs(c: Config, q: State)
    requires Consecutive(c, q) && q.total.Some? && q.started != [] && q.next > Last(c, q.total.value)
    ensures Overrun(c, q) >= 0
    ensures Overrun(c, q) > 0 <==> !q.informed && |q.started| == 1 && c.end.Some? && c.end.value + 1 < Min(q.next, q.total.value)
  {
    assert q.started[|q.started| - 1].1 + 1 == q.next;
  }

  /**
   * The main theorem: at a successful end with a known total, each index of the requested interval lies in exactly one
   * started range (or all chunks were there before). Delivered, cached, missing and forgotten chunks add up to the interval
   * and the overrun; nothing is forgotten if the total was known from the start or no worker falls back to any author, and
   * otherwise at most the chunks after 0 of the discovery window; there is no overrun if the total was known or no end index was given. No more is delivered than was asked for.
   * While a run goes on, it has one or two active ranges.
   */
  lemma SuccessTiles(c: Config, total: Option<nat>, states: seq<State>, events: seq<Event>, n: nat, i: nat)
    requires IsRun(c, total, states, events) && n < |states|
    ensures var q := states[n];
            && (q.outcome.Pending? ==> 1 <= |q.active| <= 2)
            && (q.outcome == Success && q.total.Some? ==>
                  && 0 <= Forgotten(q) <= Allowance(c, total.Some?)
                  && q.count <= Last(c, q.total.value) - c.start + 1
                  && (if q.started == [] then q.count == Last(c, q.total.value) - c.start + 1
                      else
                        && Overrun(c, q) >= 0 && (total.Some? || c.end.None? ==> Overrun(c, q) == 0)
                        && q.count + q.missing + q.loaded + Forgotten(q) == Last(c, q.total.value) - c.start + 1 + Overrun(c, q) + c.initial)
                  && (c.start <= i <= Last(c, q.total.value) && q.started != [] ==>
                        exists k: nat | k < |q.started| ::
                          InRange(q, k, i) && forall j: nat | j < |q.started| && j != k :: !InRange(q, j, i)))
  {
    RunKeeps(c, total, states, events, n);
    RunInformed(c, total, states, events, n);
    var q := states[n];
    hide IsRun, Balanced, SlotsStarted, Forgotten;
    if q.outcome == Success && q.total.Some? {
      SuccessForgets(c, q);
      if q.started != [] {
        OverrunIs(c, q);
        if c.start <= i <= Last(c, q.total.value) { InExactlyOne(c, q, i); }
      }
    }
  }

  lemma InExactlyOne(c: Config, q: State, i: nat)
    requires Consecutive(c, q) && q.started != [] && c.start <= i < q.next
    ensures exists k: nat | k < |q.started| :: InRange(q, k, i) && forall j: nat | j < |q.started| && j != k :: !InRange(q, j, i)
  {
    var k := RangeOf(c, q, i, |q.started|);
    forall j: nat | j < |q.started| && j != k ensures !InRange(q, j, i) {
      if j < k { Ordered(c, q, j, k); } else { Ordered(c, q, k, j); }
    }
  }

  /**
   * A run that ends well with nothing missing has downloaded the whole interval exactly when the cached indexes the loader
   * reported, with the forgotten ones, are as many as the caller had announced and the overrun.
   */
  lemma NothingMissing(c: Config, total: Option<nat>, states: seq<State>, events: seq<Event>, n: nat)
    requires IsRun(c, total, states, events) && n < |states|
    requires states[n].outcome == Success && states[n].total.Some? && states[n].started != [] && states[n].missing == 0
    ensures var q := states[n];
            q.count == Last(c, q.total.value) - c.start + 1 <==> q.loaded + Forgotten(q) == c.initial + Overrun(c, q)
    ensures 0 <= Forgotten(states[n]) <= Allowance(c, total.Some?)
    ensures total.Some? || c.end.None? ==> Overrun(c, states[n]) == 0
  {
    RunKeeps(c, total, states, events, n);
    RunInformed(c, total, states, events, n);
    hide IsRun, Forgotten;
    OverrunIs(c, states[n]);
    hide Consecutive;
  }

  /** While the discovery window is the only range, nothing cached was reported, and once the total is known its worker runs. */
  ghost predicate Discovering(c: Config, q: State) {
    !q.informed && q.outcome != Failure ==>
      && (|q.started| <= 1 ==> q.loaded == 0 && (q.total.Some? ==> forall k | 0 <= k < |q.active| :: q.active[k].worker))
      && (q.total.Some? ==> q.started != []) && (q.started != [] ==> q.next >= c.windowSize)
  }

  lemma NextDiscovers(c: Config, q: State)
    requires 0 < c.discoveryLength <= c.windowSize && Discovering(c, q)
    ensures Discovering(c, StartNext(c, q))
  {
    hide Last, Threshold;
  }

  lemma CoveredDiscovers(c: Config, q: State, k: nat)
    requires 0 < c.discoveryLength <= c.windowSize && Discovering(c, q)
    requires q.outcome.Pending? ==> k < |q.active| && Length(q.total, q.active[k]) >= 0
    ensures Discovering(c, Covered(c, q, k))
  {
    hide StartNext, Length, Threshold;
    if q.outcome.Pending? { NextDiscovers(c, Noted(c, q, k)); }
  }

  lemma CloseDiscovers(c: Config, q: State, k: nat)
    requires 0 < c.discoveryLength <= c.windowSize && Discovering(c, q) && k < |q.active|
    ensures Discovering(c, Close(c, q, k))
  {
    var rest := q.(active := q.active[..k] + q.active[k + 1..], closed := q.closed + [q.active[k]]);
    forall j | 0 <= j < |rest.active| ensures rest.active[j] == q.active[if j < k then j else j + 1] { }
    NextDiscovers(c, rest);
    hide StartNext, Last;
  }

  lemma EventDiscovers(c: Config, q: State, e: Event)
    requires Inv(c, q) && Discovering(c, q) && Enabled(c, q, e)
    ensures Discovering(c, Happen(c, q, e))
  {
    NoTotal(c, q);
    OnlyOne(c, q);
    hide Inv, Last, Threshold, StartNext, Covered, Live, Close, Closable;
    match e {
      case Loaded(k, cached) => { LoadedDiscovers(c, q, k, cached); }
      case Chunk(k) => { CoveredDiscovers(c, WithChunk(q, k), k); }
      case Missing(k) => { }
      case Discovered(k, total) => { CoveredDiscovers(c, q.(total := Some(total)), k); }
      case Finished(k) => { CloseDiscovers(c, q, k); }
      case Broken => { }
    }
  }

  lemma LoadedDiscovers(c: Config, q: State, k: nat, cached: nat)
    requires 0 < c.discoveryLength <= c.windowSize && Discovering(c, q) && Sane(q) && Enabled(c, q, Loaded(k, cached))
    requires q.total.None? ==> q.count == 0
    ensures Discovering(c, Load(c, q, k, cached))
  {
    hide Covered, Closable, Last;
    if q.loaded + cached <= q.count { CoveredDiscovers(c, WithCached(q, k, cached), k); }
  }

  lemma OnlyOne(c: Config, q: State)
    requires Live(c, q)
    ensures 0 < c.discoveryLength <= c.windowSize && Sane(q)
    ensures q.total.None? ==> |q.active| <= |q.started| <= 1
    ensures q.active != [] ==> q.started != []
  {
    if q.active != [] { assert (q.active[0].start, q.active[0].maxEnd) in q.started; }
    hide Balanced, Last, Length;
  }

  lemma {:induction false} RunDiscovers(c: Config, total: Option<nat>, states: seq<State>, events: seq<Event>, n: nat)
    requires IsRun(c, total, states, events) && n < |states|
    ensures Discovering(c, states[n])
  {
    hide Happen, Sane, Enabled, StartNext, Last, Inv;
    if n > 0 {
      RunDiscovers(c, total, states, events, n - 1);
      RunKeeps(c, total, states, events, n - 1);
      assert states[n - 1 + 1] == Happen(c, states[n - 1], events[n - 1]);
      hide IsRun, Accepts, Discovering;
      EventDiscovers(c, states[n - 1], events[n - 1]);
    } else {
      NextDiscovers(c, Fresh(c, total));
    }
  }

  /**
   * With an end index but no total, a download whose discovery window passes the end never ends well with everything
   * there: if it ends well, some chunk was reported missing or forgotten. In the default mode, which fails on a missing
   * chunk, it never ends well at all without the any-author fallback.
   */
  lemma EndWithoutTotalFails(c: Config, states: seq<State>, events: seq<Event>, n: nat)
    requires IsRun(c, None, states, events) && n < |states| && c.end.Some?
    requires states[n].total.Some? && c.end.value + 1 < Min(c.windowSize, states[n].total.value) && states[n].outcome == Success
    ensures states[n].missing + Forgotten(states[n]) > 0
    ensures !(c.abortOnFailure && !c.anyAuthor)
  {
    RunKeeps(c, None, states, events, n);
    RunInformed(c, None, states, events, n);
    RunDiscovers(c, None, states, events, n);
    hide IsRun, Forgotten;
    OverrunIs(c, states[n]);
    hide Consecutive;
  }

  /** The only slot of a download of two chunks, as its worker gets on. */
  ghost function TwoChunks(c: Config, total: Option<nat>, worker: bool, delivered: nat, needed: nat): State
    requires 0 < c.discoveryLength <= c.windowSize
  {
    var s := Slot(0, c.discoveryLength - 1, c.windowSize - 1, worker, delivered, needed, 0, delivered, 0);
    Fresh(c, None).(total := total, count := delivered, next := c.windowSize, active := [s], first := true,
                    started := [(0, c.windowSize - 1)])
  }

  lemma Sized(c: Config)
    requires Accepts(c, None) && c.end == None
    ensures 0 < c.discoveryLength <= c.windowSize
  {
  }

  lemma TwoBegin(c: Config)
    requires Accepts(c, None) && c.end == None
    ensures Begin(c, None) == TwoChunks(c, None, false, 0, Threshold(c.discoveryLength))
    ensures var q := Begin(c, None);
            Sane(q) && Enabled(c, q, Loaded(0, 0)) && Load(c, q, 0, 0) == TwoChunks(c, None, true, 0, Threshold(c.discoveryLength))
  {
    hide Threshold;
  }

  lemma TwoTold(c: Config, needed: nat)
    requires Accepts(c, None) && c.end == None
    ensures var q := TwoChunks(c, None, true, 0, needed);
            Sane(q) && Enabled(c, q, Discovered(0, 2)) && Discover(c, q, 0, 2) == TwoChunks(c, Some(2), true, 0, 1)
  {
    assert Threshold(2) == 1;
    hide Threshold;
  }

  lemma TwoDelivered(c: Config)
    requires Accepts(c, None) && c.end == None
    ensures var q := TwoChunks(c, Some(2), true, 0, 1);
            Sane(q) && Enabled(c, q, Chunk(0)) && Deliver(c, q, 0) == TwoChunks(c, Some(2), true, 1, 1)
  {
    assert Threshold(2) == 1;
    hide Threshold;
  }

  lemma TwoFinished(c: Config)
    requires Accepts(c, None) && c.end == None && c.anyAuthor && c.discoveryLength >= 2
    ensures var q := TwoChunks(c, Some(2), true, 1, 1);
            && Sane(q) && Enabled(c, q, Finished(0))
            && Close(c, q, 0) == q.(active := [], outcome := Success, closed := q.active) && Forgotten(Close(c, q, 0)) == 1
  {
    var q := TwoChunks(c, Some(2), true, 1, 1);
    SumOne(q.active[0], Gap(Some(2)));
    hide Threshold, Sum;
  }
}
