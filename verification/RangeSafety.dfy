/** The invariant of the range downloader, and what it delivers. */
module RangeSafety {
  import opened Basics
  import opened Sorting
  import opened BatchSelection
  import opened RangeDownload

  // ---- counting outstanding batches ----

  ghost function Containing(outs: seq<Batch>, i: nat): nat {
    if outs == [] then 0 else (if i in outs[0].indexes then 1 else 0) + Containing(outs[1..], i)
  }

  ghost function ByRelay(outs: seq<Batch>, r: nat): nat {
    if outs == [] then 0 else (if outs[0].relay == r then 1 else 0) + ByRelay(outs[1..], r)
  }

  ghost function Queued(outs: seq<Batch>, r: nat): nat {
    if outs == [] then 0 else (if outs[0].relay == r && !outs[0].started then 1 else 0) + Queued(outs[1..], r)
  }

  lemma {:induction false} CountsConcat(a: seq<Batch>, b: seq<Batch>, x: nat)
    ensures Containing(a + b, x) == Containing(a, x) + Containing(b, x)
    ensures ByRelay(a + b, x) == ByRelay(a, x) + ByRelay(b, x)
    ensures Queued(a + b, x) == Queued(a, x) + Queued(b, x)
  {
    if a == [] {
      assert a + b == b;
    } else {
      assert (a + b)[1..] == a[1..] + b;
      CountsConcat(a[1..], b, x);
    }
  }

  lemma CountsOfOne(b: Batch, x: nat)
    ensures Containing([b], x) == if x in b.indexes then 1 else 0
    ensures ByRelay([b], x) == if b.relay == x then 1 else 0
    ensures Queued([b], x) == if b.relay == x && !b.started then 1 else 0
  {
    assert [b][1..] == [];
  }

  lemma CountsAround(outs: seq<Batch>, k: nat, x: nat)
    requires k < |outs|
    ensures var rest := outs[..k] + outs[k + 1..];
            && Containing(outs, x) == Containing(rest, x) + (if x in outs[k].indexes then 1 else 0)
            && ByRelay(outs, x) == ByRelay(rest, x) + (if outs[k].relay == x then 1 else 0)
            && Queued(outs, x) == Queued(rest, x) + (if outs[k].relay == x && !outs[k].started then 1 else 0)
  {
    assert outs == outs[..k] + ([outs[k]] + outs[k + 1..]);
    CountsConcat(outs[..k], [outs[k]] + outs[k + 1..], x);
    CountsConcat([outs[k]], outs[k + 1..], x);
    CountsConcat(outs[..k], outs[k + 1..], x);
    CountsOfOne(outs[k], x);
  }

  // ---- filtering ----

  lemma {:induction false} FilteredKeeps(s: seq<nat>, p: nat -> bool)
    ensures forall x :: x in Filtered(s, p) <==> x in s && p(x)
    ensures NoDup(s) ==> NoDup(Filtered(s, p))
  {
    if s != [] {
      FilteredKeeps(s[1..], p);
      var tail := Filtered(s[1..], p);
      if NoDup(s) {
        assert s[0] !in s[1..];
        assert NoDup(tail);
      }
    }
  }

  lemma {:induction false} IndexesMember(selected: seq<Selected>, x: nat)
    ensures x in Indexes(selected) <==> exists i | 0 <= i < |selected| :: selected[i].index == Some(x)
  {
    if selected != [] {
      IndexesMember(selected[1..], x);
      if i :| 0 <= i < |selected[1..]| && selected[1..][i].index == Some(x) {
        assert selected[i + 1].index == Some(x);
      }
      if i :| 0 <= i < |selected| && selected[i].index == Some(x) {
        if i > 0 { assert selected[1..][i - 1].index == Some(x); }
      }
    }
  }

  ghost predicate RealDistinct(selected: seq<Selected>) {
    forall i, j | 0 <= i < j < |selected| && selected[i].index.Some? :: selected[i].index != selected[j].index
  }

  lemma {:induction false} IndexesDistinct(selected: seq<Selected>)
    requires RealDistinct(selected)
    ensures NoDup(Indexes(selected))
  {
    if selected != [] {
      IndexesDistinct(selected[1..]);
      if selected[0].index.Some? {
        IndexesMember(selected[1..], selected[0].index.value);
      }
    }
  }

  /** First entries of one list, whatever the offset: real, distinct, from the list; or undefined after all of it. */
  lemma GroupIndexes(available: seq<nat>, offset: nat, step: nat, room: nat, was: bool)
    requires NoDup(available) && offset < step && room > 0
    ensures var r := FromGroup(available, offset, step, room, was);
            && RealDistinct(r)
            && (forall i | 0 <= i < |r| && r[i].index.Some? :: r[i].index.value in available)
            && (available != [] ==> r != [] && r[0].index.Some?)
  {
    var r := FromGroup(available, offset, step, room, was);
    if available != [] {
      if offset <= |available| {
        FromGroupReal(available, offset, step, room, was);
      } else {
        PositionsPastEnd(offset, step, |available|);
      }
    }
  }

  /** The real indexes of a batch are distinct, come from the two lists, and exist when the lists have any. */
  lemma BatchIndexes(batchSize: nat, untried: seq<nat>, inFlight: seq<nat>, step: nat, offset: nat)
    requires batchSize > 0 && offset < step
    requires NoDup(untried) && NoDup(inFlight) && forall x | x in untried :: x !in inFlight
    ensures var idx := Indexes(BatchOf(batchSize, untried, inFlight, step, offset));
            && NoDup(idx) && (forall x | x in idx :: x in untried || x in inFlight)
            && (untried != [] || inFlight != [] ==> idx != [])
  {
    hide FromGroup;
    var first := FromGroup(untried, offset, step, batchSize, true);
    var all := BatchOf(batchSize, untried, inFlight, step, offset);
    GroupIndexes(untried, offset, step, batchSize, true);
    if |first| < batchSize { GroupIndexes(inFlight, 0, 1, batchSize - |first|, false); }
    EmptyGroup(untried, offset, step, batchSize, true);
    IndexesDistinct(all);
    forall x | x in Indexes(all) ensures x in untried || x in inFlight {
      IndexesMember(all, x);
      var i :| 0 <= i < |all| && all[i].index == Some(x);
      if i < |first| { assert all[i] == first[i]; }
    }
    if untried != [] || inFlight != [] {
      assert all[0].index.Some?;
      IndexesMember(all, all[0].index.value);
    }
  }

  lemma EmptyGroup(available: seq<nat>, offset: nat, step: nat, room: nat, was: bool)
    requires step > 0
    ensures available == [] ==> FromGroup(available, offset, step, room, was) == []
  {
  }

  // ---- the invariant ----

  ghost predicate Shape(q: State) {
    && |q.relays| > 0 && q.batchSize > 0 && q.start <= q.end <= q.maxEnd && NoDup(q.missing)
    && forall k | 0 <= k < |q.outstanding| :: q.outstanding[k].relay < |q.relays| && NoDup(q.outstanding[k].indexes)
  }

  /** Missing and covered partition the range; what is covered was cached or delivered, once. */
  ghost predicate Partition(q: State) {
    && (forall i: nat :: i in q.missing <==> q.start <= i <= q.end && i !in q.covered)
    && (forall i | i in q.covered :: q.start <= i <= q.end)
    && NoDup(q.delivered)
    && (forall i: nat :: i in q.covered <==> (i in q.cached && i <= q.end) || i in q.delivered)
    && (forall i | i in q.delivered :: i !in q.cached)
  }

  /** A missing index's counter is the number of outstanding batches that contain it, and is absent at zero. */
  ghost predicate Counted(q: State) {
    forall i | i in q.missing :: CountOf(q.counters, i) == Containing(q.outstanding, i) && (i in q.counters ==> q.counters[i] > 0)
  }

  /** A relay's slots are its outstanding batches, at most three, of which at most one is still queued. */
  ghost predicate Slots(q: State) {
    forall r | 0 <= r < |q.relays| ::
      && q.relays[r].scheduled == ByRelay(q.outstanding, r) <= MAX_RELAY_BATCHES
      && Queued(q.outstanding, r) == if q.relays[r].pending then 1 else 0
  }

  /** A relay is asked for an index at most once per author mode: the ask history has no repetition. */
  ghost predicate AskedOnce(q: State) {
    && NoDup(q.asked)
    && (forall a :: a in q.asked <==> a.relay < |q.relays| && a.index in TriedBy(q.relays[a.relay], a.fallback))
    && (forall a | a in q.asked :: q.start <= a.index <= q.maxEnd && (a.fallback ==> a.index in q.fallbacks))
    && (forall k, i | 0 <= k < |q.outstanding| && i in q.outstanding[k].indexes :: Ask(q.outstanding[k].relay, q.outstanding[k].fallback, i) in q.asked)
    && (q.fallbacks != {} ==> q.canFallBack)
  }

  /** A reported index is missing for good: nobody fetches it and nobody is left to ask. */
  ghost predicate ReportedForGood(q: State) {
    && NoDup(q.lost) && (forall i: nat :: i in q.lost <==> i in q.reported)
    && forall i | i in q.reported :: i in q.missing && Containing(q.outstanding, i) == 0 && AllTried(q, i) && (i in q.fallbacks || !q.canFallBack)
  }

  /** An unreported missing index that nobody fetches has a relay left to ask. */
  ghost predicate Alive(q: State, i: nat) {
    i in q.missing && i !in q.reported && Containing(q.outstanding, i) == 0 ==> !AllTried(q, i)
  }

  /** Until the total is known nothing is delivered, nothing beyond the provisional end is asked, and only index 0 is given up. */
  ghost predicate Provisional(q: State) {
    q.total.None? ==>
      && !q.informed && q.end == q.scope && q.delivered == [] && (forall i | i in q.cached :: i <= q.end)
      && (forall a | a in q.asked :: a.index <= q.end)
      && (forall i | i in q.counters :: i <= q.end)
      && (forall i | i in q.reported :: i == 0)
  }

  ghost predicate Core(q: State) {
    Shape(q) && Partition(q) && Counted(q) && Slots(q) && AskedOnce(q) && ReportedForGood(q) && Provisional(q)
  }

  /** An index that no exhausted batch is ever skipped for: all but those asked for while the total was unknown, 0 aside. */
  ghost predicate Watched(q: State, i: nat) { q.informed || i == 0 || i > q.scope }

  ghost predicate AllAlive(q: State) {
    forall i | i in q.missing && Watched(q, i) :: Alive(q, i)
  }

  ghost predicate Inv(q: State) {
    && Core(q)
    && (q.running ==> AllAlive(q))
    && (q.running ==> q.outstanding != [])
    && (q.finished ==> !q.running && Concluded(q))
  }

  /**
   * What a finished run leaves: every index that is missing was reported, or, where the any-author fallback meets a
   * total that was not known from the start, promoted by the very last check and never asked for.
   */
  ghost predicate Concluded(q: State) {
    q.total.Some? ==> forall i | i in q.missing :: i in q.reported || (q.canFallBack && i in q.fallbacks && !Watched(q, i))
  }

  // ---- requesting ----

  lemma SelectionOpen(q: State, r: nat)
    requires Shape(q) && r < |q.relays|
    ensures var (fallback, idx) := SelectBatch(q, r);
            NoDup(idx) && forall i | i in idx :: i in q.missing && Open(q, r, fallback, i)
    ensures SelectBatch(q, r).1 == [] ==> forall fallback, i | i in q.missing :: !Open(q, r, fallback, i)
  {
    ModeOpen(q, r, false);
    ModeOpen(q, r, true);
  }

  /** The two lists of a selection: distinct, disjoint, and together the missing indexes this relay may be asked for. */
  lemma ListsOpen(q: State, r: nat, fallback: bool)
    requires Shape(q) && r < |q.relays|
    ensures var untried, inFlight := Untried(q, r, fallback), InFlight(q, r, fallback);
            && NoDup(untried) && NoDup(inFlight) && (forall i | i in untried :: i !in inFlight)
            && (forall i :: i in untried || i in inFlight <==> i in q.missing && Open(q, r, fallback, i))
  {
    var p := (i: nat) => Open(q, r, fallback, i) && i !in q.counters;
    var p' := (i: nat) => Open(q, r, fallback, i) && i in q.counters;
    FilteredKeeps(q.missing, p);
    FilteredKeeps(q.missing, p');
    SortByIsSorted(Filtered(q.missing, p'), (i: nat) => CountOf(q.counters, i));
    PermutedNoDup(Filtered(q.missing, p'), InFlight(q, r, fallback));
    hide NoDup, Filtered, SortBy, Open;
  }

  lemma ModeOpen(q: State, r: nat, fallback: bool)
    requires Shape(q) && r < |q.relays|
    ensures var idx := Indexes(SelectMode(q, r, fallback));
            && NoDup(idx) && (forall i | i in idx :: i in q.missing && Open(q, r, fallback, i))
            && (idx == [] ==> forall i | i in q.missing :: !Open(q, r, fallback, i))
  {
    hide Indexes, BatchOf, NoDup, Untried, InFlight, Open;
    var untried, inFlight := Untried(q, r, fallback), InFlight(q, r, fallback);
    ListsOpen(q, r, fallback);
    BatchIndexes(q.batchSize, untried, inFlight, |q.relays|, r);
    forall i | i in q.missing && Open(q, r, fallback, i) ensures untried != [] || inFlight != [] {
      assert i in untried || i in inFlight;
    }
  }

  // ---- a launch keeps the invariant ----

  /** What `Request` knows about the batch it launches. */
  ghost predicate Launchable(q: State, r: nat, fallback: bool, idx: seq<nat>) {
    && r < |q.relays| && MayRequest(q, r) && NoDup(idx)
    && forall i | i in idx :: i in q.missing && Open(q, r, fallback, i)
  }

  lemma LaunchCounted(q: State, r: nat, fallback: bool, idx: seq<nat>, started: bool)
    requires Core(q) && Launchable(q, r, fallback, idx)
    ensures Counted(Launch(q, r, fallback, idx, started))
  {
    hide Partition, Slots, AskedOnce, ReportedForGood;
    var b := Batch(r, fallback, idx, started);
    forall i | i in q.missing
      ensures Containing(q.outstanding + [b], i) == Containing(q.outstanding, i) + (if i in idx then 1 else 0)
    {
      CountsConcat(q.outstanding, [b], i);
      CountsOfOne(b, i);
    }
  }

  lemma LaunchSlots(q: State, r: nat, fallback: bool, idx: seq<nat>, started: bool)
    requires Core(q) && Launchable(q, r, fallback, idx)
    ensures Slots(Launch(q, r, fallback, idx, started))
  {
    hide Partition, Counted, AskedOnce, ReportedForGood;
    var b := Batch(r, fallback, idx, started);
    forall x: nat | x < |q.relays|
      ensures ByRelay(q.outstanding + [b], x) == ByRelay(q.outstanding, x) + (if r == x then 1 else 0)
      ensures Queued(q.outstanding + [b], x) == Queued(q.outstanding, x) + (if r == x && !started then 1 else 0)
    {
      CountsConcat(q.outstanding, [b], x);
      CountsOfOne(b, x);
    }
  }

  lemma LaunchTried(q: State, r: nat, fallback: bool, idx: seq<nat>, started: bool, x: nat, mode: bool, i: nat)
    requires r < |q.relays| && x < |q.relays|
    ensures i in TriedBy(Launch(q, r, fallback, idx, started).relays[x], mode)
       <==> i in TriedBy(q.relays[x], mode) || (x == r && mode == fallback && i in idx)
  {
  }

  lemma AsksMember(r: nat, fallback: bool, idx: seq<nat>, a: Ask)
    ensures a in Asks(r, fallback, idx) <==> a.relay == r && a.fallback == fallback && a.index in idx
  {
    var all := Asks(r, fallback, idx);
    if a.relay == r && a.fallback == fallback && a.index in idx {
      var i :| 0 <= i < |idx| && idx[i] == a.index;
      assert all[i] == a;
    }
  }

  lemma LaunchHistory(q: State, r: nat, fallback: bool, idx: seq<nat>)
    requires Core(q) && Launchable(q, r, fallback, idx)
    ensures NoDup(q.asked + Asks(r, fallback, idx))
  {
    hide Partition, Counted, Slots, ReportedForGood;
    var more := Asks(r, fallback, idx);
    forall a | a in q.asked ensures a !in more { AsksMember(r, fallback, idx, a); }
    assert NoDup(more);
    NoDupConcat(q.asked, more);
  }

  lemma LaunchAsked(q: State, r: nat, fallback: bool, idx: seq<nat>, started: bool)
    requires Core(q) && Launchable(q, r, fallback, idx)
    ensures AskedOnce(Launch(q, r, fallback, idx, started))
  {
    LaunchHistory(q, r, fallback, idx);
    hide Counted, Slots, ReportedForGood, Provisional, NoDup, Asks;
    var q' := Launch(q, r, fallback, idx, started);
    var more := Asks(r, fallback, idx);
    assert q'.asked == q.asked + more;
    forall a ensures a in q'.asked <==> a.relay < |q'.relays| && a.index in TriedBy(q'.relays[a.relay], a.fallback) {
      AsksMember(r, fallback, idx, a);
      if a.relay < |q.relays| { LaunchTried(q, r, fallback, idx, started, a.relay, a.fallback, a.index); }
    }
    forall a | a in q'.asked ensures q.start <= a.index <= q.maxEnd && (a.fallback ==> a.index in q.fallbacks) {
      AsksMember(r, fallback, idx, a);
    }
    forall k, i | 0 <= k < |q'.outstanding| && i in q'.outstanding[k].indexes
      ensures Ask(q'.outstanding[k].relay, q'.outstanding[k].fallback, i) in q'.asked
    {
      AsksMember(r, fallback, idx, Ask(r, fallback, i));
      if k < |q.outstanding| { assert q'.outstanding[k] == q.outstanding[k]; }
    }
  }

  lemma LaunchReported(q: State, r: nat, fallback: bool, idx: seq<nat>, started: bool)
    requires Core(q) && Launchable(q, r, fallback, idx)
    ensures ReportedForGood(Launch(q, r, fallback, idx, started))
  {
    hide Partition, Counted, Slots, AskedOnce;
    var b := Batch(r, fallback, idx, started);
    var q' := Launch(q, r, fallback, idx, started);
    forall i | i in q.reported ensures Containing(q'.outstanding, i) == 0 && AllTried(q', i) {
      assert i !in idx;
      CountsConcat(q.outstanding, [b], i);
      CountsOfOne(b, i);
      forall x: nat | x < |q.relays| ensures i in TriedBy(q'.relays[x], i in q.fallbacks) {
        LaunchTried(q, r, fallback, idx, started, x, i in q.fallbacks, i);
      }
    }
  }

  lemma LaunchProvisional(q: State, r: nat, fallback: bool, idx: seq<nat>, started: bool)
    requires Core(q) && Launchable(q, r, fallback, idx)
    ensures Provisional(Launch(q, r, fallback, idx, started))
  {
    hide Counted, Slots, AskedOnce, ReportedForGood, NoDup;
    if q.total.None? {
      var q' := Launch(q, r, fallback, idx, started);
      forall a | a in q'.asked ensures a.index <= q.end { AsksMember(r, fallback, idx, a); }
    }
  }

  /** A launch leaves every live index alive. */
  lemma LaunchAlive(q: State, r: nat, fallback: bool, idx: seq<nat>, started: bool, i: nat)
    requires Launchable(q, r, fallback, idx) && Alive(q, i)
    ensures Alive(Launch(q, r, fallback, idx, started), i)
  {
    var b := Batch(r, fallback, idx, started);
    var q' := Launch(q, r, fallback, idx, started);
    CountsConcat(q.outstanding, [b], i);
    CountsOfOne(b, i);
    if i !in idx && i in q.missing && i !in q.reported && Containing(q.outstanding, i) == 0 {
      var x :| 0 <= x < |q.relays| && i !in TriedBy(q.relays[x], i in q.fallbacks);
      LaunchTried(q, r, fallback, idx, started, x, i in q.fallbacks, i);
    }
  }

  lemma LaunchKeeps(q: State, r: nat, fallback: bool, idx: seq<nat>, started: bool)
    requires Core(q) && Launchable(q, r, fallback, idx)
    ensures Core(Launch(q, r, fallback, idx, started))
  {
    hide Counted, Slots, AskedOnce, ReportedForGood, Provisional, Open;
    LaunchProvisional(q, r, fallback, idx, started);
    LaunchCounted(q, r, fallback, idx, started);
    LaunchSlots(q, r, fallback, idx, started);
    LaunchAsked(q, r, fallback, idx, started);
    LaunchReported(q, r, fallback, idx, started);
  }

  // ---- requesting keeps the invariant ----

  /** What requesting never touches, and never takes back. */
  ghost predicate Same(q: State, q': State) {
    && q'.start == q.start && q'.end == q.end && q'.maxEnd == q.maxEnd && q'.scope == q.scope && q'.total == q.total && q'.informed == q.informed
    && q'.batchSize == q.batchSize && q'.canFallBack == q.canFallBack
    && q'.cached == q.cached && |q'.relays| == |q.relays| && q'.missing == q.missing && q'.covered == q.covered
    && q'.delivered == q.delivered && q'.finished == q.finished
  }

  ghost predicate OnlyRequests(q: State, q': State) {
    && Same(q, q') && q'.running == q.running && q'.fallbacks == q.fallbacks && q'.reported == q.reported && q'.lost == q.lost
    && q.outstanding <= q'.outstanding && q.asked <= q'.asked
    && (q'.outstanding == q.outstanding ==> q' == q)
  }

  lemma RequestKeeps(q: State, r: nat, started: bool)
    requires Core(q) && r < |q.relays|
    ensures var q' := Request(q, r, started);
            && Core(q') && OnlyRequests(q, q') && Paid(q, q')
            && (forall i | Alive(q, i) :: Alive(q', i))
  {
    SelectionOpen(q, r);
    var (fallback, idx) := SelectBatch(q, r);
    if MayRequest(q, r) && idx != [] {
      LaunchKeeps(q, r, fallback, idx, started);
      LaunchPaid(q, r, fallback, idx, started);
      forall i | Alive(q, i) ensures Alive(Launch(q, r, fallback, idx, started), i) {
        LaunchAlive(q, r, fallback, idx, started, i);
      }
    }
  }

  lemma {:induction false} RequestFromKeeps(q: State, r: nat, w: World)
    requires Core(q)
    ensures var q' := RequestFrom(q, r, w);
            && Core(q') && OnlyRequests(q, q') && Paid(q, q')
            && (forall i | Alive(q, i) :: Alive(q', i))
    decreases |q.relays| - r
  {
    hide Core, Alive, Request;
    if r < |q.relays| {
      RequestKeeps(q, r, w.starts(r));
      RequestFromKeeps(Request(q, r, w.starts(r)), r + 1, w);
    }
  }

  lemma ScheduleKeeps(q: State, w: World)
    requires Core(q)
    ensures var q' := Schedule(q, w);
            && Core(q') && OnlyRequests(q, q') && Paid(q, q')
            && (forall i | Alive(q, i) :: Alive(q', i))
  {
    hide Core, Alive, RequestFrom;
    RequestFromKeeps(q, 0, w);
  }

  /** With nothing outstanding, a round that launches nothing found no relay to ask for any missing index. */
  lemma {:induction false} NothingToAsk(q: State, from: nat, w: World, r: nat, i: nat)
    requires Core(q) && q.running && q.outstanding == [] && from <= r < |q.relays| && i in q.missing
    requires RequestFrom(q, from, w).outstanding == []
    ensures i in TriedBy(q.relays[r], i in q.fallbacks)
    decreases r - from
  {
    hide Core, Request, Alive;
    RequestKeeps(q, from, w.starts(from));
    RequestFromKeeps(Request(q, from, w.starts(from)), from + 1, w);
    assert Request(q, from, w.starts(from)) == q;
    if from < r {
      NothingToAsk(q, from + 1, w, r, i);
    } else {
      IdleRelayAsked(q, r, w.starts(r), i);
    }
  }

  lemma IdleRelayAsked(q: State, r: nat, started: bool, i: nat)
    requires Core(q) && q.running && q.outstanding == [] && r < |q.relays| && i in q.missing
    requires Request(q, r, started) == q
    ensures i in TriedBy(q.relays[r], i in q.fallbacks)
  {
    SelectionOpen(q, r);
    assert MayRequest(q, r) by {
      hide Partition, Counted, AskedOnce, ReportedForGood, SelectBatch;
      assert ByRelay(q.outstanding, r) == 0 && Queued(q.outstanding, r) == 0;
    }
    hide Core, SelectBatch;
    assert !Open(q, r, i in q.fallbacks, i);
  }

  // ---- the work that is left ----

  ghost function Unstarted(outs: seq<Batch>): nat {
    if outs == [] then 0 else (if outs[0].started then 0 else 1) + Unstarted(outs[1..])
  }

  lemma {:induction false} UnstartedConcat(a: seq<Batch>, b: seq<Batch>)
    ensures Unstarted(a + b) == Unstarted(a) + Unstarted(b)
  {
    if a == [] {
      assert a + b == b;
    } else {
      assert (a + b)[1..] == a[1..] + b;
      UnstartedConcat(a[1..], b);
    }
  }

  lemma UnstartedAround(outs: seq<Batch>, k: nat)
    requires k < |outs|
    ensures Unstarted(outs) == Unstarted(outs[..k] + outs[k + 1..]) + (if outs[k].started then 0 else 1)
  {
    assert outs == outs[..k] + ([outs[k]] + outs[k + 1..]);
    UnstartedConcat(outs[..k], [outs[k]] + outs[k + 1..]);
    UnstartedConcat([outs[k]], outs[k + 1..]);
    UnstartedConcat(outs[..k], outs[k + 1..]);
    assert [outs[k]][1..] == [];
  }

  /** Asks a run may still make: every relay, both author modes, every index. */
  ghost function AskBound(q: State): nat {
    2 * |q.relays| * Longest(q)
  }

  /** Indexes the range may come to hold. */
  ghost function Longest(q: State): nat {
    if q.start <= q.maxEnd then q.maxEnd - q.start + 1 else 0
  }

  /** Events that are still due: what outstanding batches owe, chunks to come, asks not yet made, and the discovery. */
  ghost function Work(q: State): int {
    4 * (AskBound(q) - |q.asked|) + 2 * |q.outstanding| + Unstarted(q.outstanding) + |q.missing| + (if q.running then 1 else 0)
    + (if q.total.None? then Longest(q) + 1 else 0)
  }

  /** New batches are paid for by new asks. */
  ghost predicate Paid(q: State, q': State) {
    Work(q') <= Work(q) && (q'.outstanding != q.outstanding ==> Work(q') < Work(q))
  }

  lemma LaunchPaid(q: State, r: nat, fallback: bool, idx: seq<nat>, started: bool)
    requires Launchable(q, r, fallback, idx) && idx != []
    ensures var q' := Launch(q, r, fallback, idx, started);
            Paid(q, q')
  {
    var b := Batch(r, fallback, idx, started);
    UnstartedConcat(q.outstanding, [b]);
    assert [b][1..] == [];
  }

  function Digit(a: Ask, start: nat, n: nat): int {
    (2 * a.relay + (if a.fallback then 1 else 0)) * n + (a.index - start)
  }

  lemma Positional(a: nat, b: nat, x: nat, y: nat, n: nat)
    requires x < n && y < n
    ensures a * n + x == b * n + y ==> a == b && x == y
  {
    MonotoneProduct(a, b, n);
    MonotoneProduct(b, a, n);
  }

  lemma {:induction false} MonotoneProduct(a: nat, b: nat, n: nat)
    ensures a < b ==> a * n + n <= b * n
    decreases b
  {
    if a + 1 < b {
      MonotoneProduct(a, b - 1, n);
      assert b * n == (b - 1) * n + n;
    } else if a < b {
      assert b * n == (a + 1) * n == a * n + n;
    }
  }

  lemma {:induction false} DistinctBelow(s: seq<int>, n: nat)
    requires NoDup(s) && forall x | x in s :: 0 <= x < n
    ensures |s| <= n
    decreases n
  {
    if s != [] {
      var x := s[0];
      assert x in s;
    }
    if n == 0 {
    } else if k :| 0 <= k < |s| && s[k] == n - 1 {
      var rest := s[..k] + s[k + 1..];
      forall x | x in rest ensures 0 <= x < n - 1 {
        var j :| 0 <= j < |rest| && rest[j] == x;
        assert x == s[if j < k then j else j + 1];
        assert x in s;
      }
      DistinctBelow(rest, n - 1);
    } else {
      DistinctBelow(s, n - 1);
    }
  }

  lemma DigitBelow(a: Ask, q: State)
    requires a.relay < |q.relays| && q.start <= a.index <= q.maxEnd
    ensures 0 <= Digit(a, q.start, q.maxEnd - q.start + 1) < AskBound(q)
  {
    var n := q.maxEnd - q.start + 1;
    var head := 2 * a.relay + (if a.fallback then 1 else 0);
    MonotoneProduct(head, 2 * |q.relays|, n);
  }

  lemma DigitsDiffer(a: Ask, b: Ask, q: State)
    requires q.start <= a.index <= q.maxEnd && q.start <= b.index <= q.maxEnd && a != b
    ensures Digit(a, q.start, q.maxEnd - q.start + 1) != Digit(b, q.start, q.maxEnd - q.start + 1)
  {
    Positional(2 * a.relay + (if a.fallback then 1 else 0), 2 * b.relay + (if b.fallback then 1 else 0),
               a.index - q.start, b.index - q.start, q.maxEnd - q.start + 1);
  }

  /** No run asks more often than relays, author modes and indexes allow. */
  lemma AsksBounded(q: State)
    requires Core(q)
    ensures |q.asked| <= AskBound(q)
  {
    hide Partition, Counted, Slots, ReportedForGood, Provisional, AskBound, Digit, TriedBy;
    if q.asked == [] { return; }
    assert q.asked[0] in q.asked;
    var n := q.maxEnd - q.start + 1;
    var digits := seq(|q.asked|, k requires 0 <= k < |q.asked| => Digit(q.asked[k], q.start, n));
    forall j, k | 0 <= j < k < |digits| ensures digits[j] != digits[k] {
      assert q.asked[j] in q.asked && q.asked[k] in q.asked;
      DigitsDiffer(q.asked[j], q.asked[k], q);
    }
    forall x | x in digits ensures 0 <= x < AskBound(q) {
      var k :| 0 <= k < |digits| && digits[k] == x;
      assert q.asked[k] in q.asked;
      DigitBelow(q.asked[k], q);
    }
    DistinctBelow(digits, AskBound(q));
  }

  // ---- a batch starts, receives and ends ----

  lemma StartCounts(q: State, k: nat, x: nat)
    requires k < |q.outstanding| && !q.outstanding[k].started && q.outstanding[k].relay < |q.relays|
    ensures var q' := StartBatch(q, k);
            && Containing(q'.outstanding, x) == Containing(q.outstanding, x)
            && ByRelay(q'.outstanding, x) == ByRelay(q.outstanding, x)
            && Queued(q'.outstanding, x) == Queued(q.outstanding, x) - (if x == q.outstanding[k].relay then 1 else 0)
            && Unstarted(q'.outstanding) == Unstarted(q.outstanding) - 1
  {
    var q' := StartBatch(q, k);
    assert q'.outstanding[..k] + q'.outstanding[k + 1..] == q.outstanding[..k] + q.outstanding[k + 1..];
    CountsAround(q.outstanding, k, x);
    CountsAround(q'.outstanding, k, x);
    UnstartedAround(q.outstanding, k);
    UnstartedAround(q'.outstanding, k);
  }

  lemma StartCore(q: State, k: nat)
    requires Core(q) && k < |q.outstanding| && !q.outstanding[k].started
    ensures Core(StartBatch(q, k))
  {
    var q' := StartBatch(q, k);
    forall x: nat
      ensures Containing(q'.outstanding, x) == Containing(q.outstanding, x)
      ensures ByRelay(q'.outstanding, x) == ByRelay(q.outstanding, x)
      ensures Queued(q'.outstanding, x) == Queued(q.outstanding, x) - (if x == q.outstanding[k].relay then 1 else 0)
    {
      StartCounts(q, k, x);
    }
    hide Containing, ByRelay, Queued;
    assert Shape(q') && Partition(q') by { hide Counted, Slots, AskedOnce, ReportedForGood; }
    assert Counted(q') by { hide Partition, Slots, AskedOnce, ReportedForGood; }
    assert Slots(q') by { hide Partition, Counted, AskedOnce, ReportedForGood; }
    assert AskedOnce(q') by { hide Partition, Counted, Slots, ReportedForGood; }
    assert ReportedForGood(q') by { hide Partition, Counted, Slots, AskedOnce; }
    assert Provisional(q') by { hide Shape, Partition, Counted, Slots, AskedOnce, ReportedForGood; }
    hide Provisional, Shape, Partition, Counted, Slots, AskedOnce, ReportedForGood;
  }

  lemma StartKeeps(q: State, k: nat)
    requires Core(q) && k < |q.outstanding| && !q.outstanding[k].started && q.outstanding[k].relay < |q.relays|
    ensures var q' := StartBatch(q, k);
            Core(q') && (forall i | Alive(q, i) :: Alive(q', i)) && Work(q') < Work(q)
  {
    hide Core, Containing, ByRelay, Queued;
    var q' := StartBatch(q, k);
    StartCore(q, k);
    StartCounts(q, k, 0);
    forall i | Alive(q, i) ensures Alive(q', i) {
      StartCounts(q, k, i);
      if i in q.missing && i !in q.reported && Containing(q.outstanding, i) == 0 {
        var r :| 0 <= r < |q.relays| && i !in TriedBy(q.relays[r], i in q.fallbacks);
        assert i !in TriedBy(q'.relays[r], i in q.fallbacks);
      }
    }
  }

  lemma Held(outs: seq<Batch>, k: nat, i: nat)
    requires k < |outs| && i in outs[k].indexes
    ensures Containing(outs, i) > 0
  {
    CountsAround(outs, k, i);
  }

  lemma {:induction false} FilteredOut(s: seq<nat>, i: nat)
    requires NoDup(s) && i in s
    ensures |Filtered(s, (x: nat) => x != i)| == |s| - 1
  {
    var p := (x: nat) => x != i;
    if s[0] == i {
      FilteredAll(s[1..], p);
    } else {
      FilteredOut(s[1..], i);
    }
  }

  lemma {:induction false} FilteredAll(s: seq<nat>, p: nat -> bool)
    requires forall x | x in s :: p(x)
    ensures Filtered(s, p) == s
  {
    if s != [] { FilteredAll(s[1..], p); }
  }

  lemma CoverKeeps(q: State, k: nat, i: nat)
    requires Core(q) && k < |q.outstanding| && i in q.outstanding[k].indexes && q.total.Some?
    ensures var q' := Cover(q, i);
            && Core(q') && (forall x | Alive(q, x) :: Alive(q', x))
            && q'.outstanding == q.outstanding && q'.running == q.running && q'.finished == q.finished && q'.informed == q.informed && q'.scope == q.scope
            && (q' == q || Work(q') < Work(q))
  {
    if q.running && i in q.missing {
      CoverPartition(q, k, i);
      CoverRest(q, k, i);
      FilteredKeeps(q.missing, (x: nat) => x != i);
      FilteredOut(q.missing, i);
      hide Partition, Counted, Slots, AskedOnce, ReportedForGood, Filtered;
    }
  }

  lemma CoverPartition(q: State, k: nat, i: nat)
    requires Core(q) && k < |q.outstanding| && q.running && q.total.Some? && i in q.outstanding[k].indexes && i in q.missing
    ensures var q' := Cover(q, i); Shape(q') && Partition(q')
  {
    hide Counted, Slots, AskedOnce, ReportedForGood, Filtered;
    FilteredKeeps(q.missing, (x: nat) => x != i);
    var q' := Cover(q, i);
    assert forall x: nat :: x in q'.missing <==> x in q.missing && x != i;
    NoDupConcat(q.delivered, [i]);
    hide NoDup;
  }

  lemma CoverRest(q: State, k: nat, i: nat)
    requires Core(q) && k < |q.outstanding| && q.running && q.total.Some? && i in q.outstanding[k].indexes && i in q.missing
    ensures var q' := Cover(q, i); Counted(q') && Slots(q') && AskedOnce(q') && ReportedForGood(q')
  {
    hide Partition, Filtered;
    FilteredKeeps(q.missing, (x: nat) => x != i);
    Held(q.outstanding, k, i);
    var q' := Cover(q, i);
    assert Counted(q') by { hide Slots, AskedOnce, ReportedForGood, Containing; }
    assert ReportedForGood(q') by {
      hide Slots, AskedOnce, Counted, Containing;
      forall x | x in q.reported ensures x in q'.missing && AllTried(q', x) { assert AllTried(q, x); }
    }
    assert Slots(q') && AskedOnce(q') by { hide Counted, ReportedForGood; }
    hide Counted, Slots, AskedOnce, ReportedForGood;
  }

  // ---- the total is discovered ----

  lemma {:induction false} RebuiltIs(start: nat, end: int, covered: set<nat>)
    requires start <= end + 1
    ensures forall i: nat :: i in Rebuilt(start, end, covered) <==> start <= i <= end && i !in covered
    ensures NoDup(Rebuilt(start, end, covered)) && |Rebuilt(start, end, covered)| <= end - start + 1
    decreases end
  {
    if start <= end { RebuiltIs(start, end - 1, covered); }
  }

  lemma BoundedPartition(q: State, total: nat)
    requires Core(q) && q.total.None? && q.start < total
    ensures var q' := Bounded(q, total); Shape(q') && Partition(q') && |q'.missing| <= Longest(q)
  {
    hide Counted, Slots, AskedOnce, ReportedForGood;
    var end := Min(q.maxEnd, total - 1);
    var q' := Bounded(q, total);
    RebuiltIs(q.start, end, q'.covered);
    hide Rebuilt, NoDup;
  }

  /** An index that was not missing before nobody has asked for, and an index given up is missing still. */
  lemma BoundedMissing(q: State, total: nat, i: nat)
    requires Core(q) && q.total.None? && q.start < total
    ensures var q' := Bounded(q, total);
            && (i in q'.missing && i !in q.missing ==> i !in q.counters && Containing(q.outstanding, i) == 0)
            && (i in q.reported ==> i in q'.missing)
  {
    hide Counted, Slots;
    var end := Min(q.maxEnd, total - 1);
    var q' := Bounded(q, total);
    RebuiltIs(q.start, end, q'.covered);
    hide Rebuilt, NoDup;
    HolderAsked(q, i);
    hide AskedOnce, Containing;
    assert Ask(0, false, i) in q.asked ==> i <= q.end;
  }

  /** Whoever fetches an index has asked for it. */
  lemma HolderAsked(q: State, i: nat)
    requires AskedOnce(q)
    ensures Containing(q.outstanding, i) > 0 ==> exists a :: a in q.asked && a.index == i
  {
    SomeHolder(q.outstanding, i);
    if k :| 0 <= k < |q.outstanding| && i in q.outstanding[k].indexes {
      assert Ask(q.outstanding[k].relay, q.outstanding[k].fallback, i) in q.asked;
    }
  }

  lemma {:induction false} SomeHolder(outs: seq<Batch>, i: nat)
    ensures Containing(outs, i) > 0 ==> exists k :: 0 <= k < |outs| && i in outs[k].indexes
  {
    if outs != [] {
      SomeHolder(outs[1..], i);
      if k :| 0 <= k < |outs[1..]| && i in outs[1..][k].indexes { assert i in outs[k + 1].indexes; }
    }
  }

  lemma BoundedKeeps(q: State, total: nat)
    requires Core(q) && q.total.None? && q.start < total
    ensures var q' := Bounded(q, total); Core(q') && Work(q') < Work(q)
  {
    BoundedPartition(q, total);
    var q' := Bounded(q, total);
    forall i: nat
      ensures i in q'.missing && i !in q.missing ==> i !in q.counters && Containing(q.outstanding, i) == 0
      ensures i in q.reported ==> i in q'.missing
    {
      BoundedMissing(q, total, i);
    }
    hide Partition, Rebuilt, Containing, NoDup;
    assert Counted(q') by { hide Slots, AskedOnce, ReportedForGood; }
    assert ReportedForGood(q') by {
      hide Slots, AskedOnce, Counted;
      forall x | x in q.reported ensures AllTried(q', x) { assert AllTried(q, x); }
    }
    assert Slots(q') && AskedOnce(q') by { hide Counted, ReportedForGood; }
    hide Counted, Slots, AskedOnce, ReportedForGood;
  }

  /** An index that discovery brings in was never asked for, and index 0 stays as it was. */
  lemma BoundedAlive(q: State, total: nat)
    requires Core(q) && AllAlive(q) && q.total.None? && q.start < total
    ensures AllAlive(Bounded(q, total))
  {
    var q' := Bounded(q, total);
    BoundedPartition(q, total);
    hide Counted, Slots, ReportedForGood, Rebuilt, Containing, NoDup;
    forall i | i in q'.missing && Watched(q', i) ensures Alive(q', i) {
      if i == 0 {
        assert i in q.missing && Alive(q, i) by { hide Bounded, AskedOnce; }
        hide Partition, AskedOnce, Bounded;
        AliveBounded(q, total, i);
      } else {
        hide Partition;
        assert Ask(0, i in q.fallbacks, i) !in q.asked;
        assert i !in TriedBy(q'.relays[0], i in q'.fallbacks);
      }
    }
  }

  lemma AliveBounded(q: State, total: nat, i: nat)
    requires q.start < total && i in q.missing && Alive(q, i)
    ensures Alive(Bounded(q, total), i)
  {
    hide Rebuilt, Containing;
    var q' := Bounded(q, total);
    if i !in q.reported && Containing(q.outstanding, i) == 0 {
      var r :| 0 <= r < |q.relays| && i !in TriedBy(q.relays[r], i in q.fallbacks);
      assert i !in TriedBy(q'.relays[r], i in q'.fallbacks);
    }
  }

  lemma ReceiveKeeps(q: State, k: nat, i: nat, total: nat, w: World)
    requires Inv(q) && k < |q.outstanding|
    ensures var q' := Receive(q, k, i, total, w); Inv(q') && (q' == q || Work(q') < Work(q))
  {
    InformedIsKnown(q);
    hide Core, Alive, Bounded, Schedule, Cover;
    if q.running && i in q.outstanding[k].indexes {
      if q.total.Some? {
        CoverKeeps(q, k, i);
        CoverMissing(q, i);
      } else if q.start < total {
        BoundedKeeps(q, total);
        BoundedAlive(q, total);
        var d := Bounded(q, total);
        BoundedFields(q, total);
        ScheduleKeeps(d, w);
        assert Schedule(d, w).outstanding[k] == q.outstanding[k];
        CoverKeeps(Schedule(d, w), k, i);
      }
    }
  }

  lemma CoverMissing(q: State, i: nat)
    ensures forall x | x in Cover(q, i).missing :: x in q.missing
  {
    FilteredKeeps(q.missing, (x: nat) => x != i);
  }

  lemma BoundedFields(q: State, total: nat)
    requires q.start < total
    ensures var q' := Bounded(q, total);
            && q'.total == Some(total) && q'.outstanding == q.outstanding && q'.running == q.running
            && q'.finished == q.finished && q'.informed == q.informed && q'.scope == q.scope
  {
  }

  lemma DropCounted(q: State, k: nat)
    requires Core(q) && k < |q.outstanding|
    ensures Counted(Drop(q, k))
  {
    hide Partition, Slots, AskedOnce, ReportedForGood;
    var q' := Drop(q, k);
    forall i | i in q.missing
      ensures CountOf(q'.counters, i) == Containing(q'.outstanding, i) && (i in q'.counters ==> q'.counters[i] > 0)
    {
      CountsAround(q.outstanding, k, i);
    }
  }

  lemma DropSlots(q: State, k: nat)
    requires Core(q) && k < |q.outstanding|
    ensures Slots(Drop(q, k))
  {
    hide Partition, Counted, AskedOnce, ReportedForGood, Lowered;
    var q' := Drop(q, k);
    forall x: nat | x < |q.relays|
      ensures q'.relays[x].scheduled == ByRelay(q'.outstanding, x) <= MAX_RELAY_BATCHES
      ensures Queued(q'.outstanding, x) == if q'.relays[x].pending then 1 else 0
    {
      CountsAround(q.outstanding, k, x);
    }
  }

  lemma DropRest(q: State, k: nat)
    requires Core(q) && k < |q.outstanding|
    ensures var q' := Drop(q, k); Shape(q') && Partition(q') && AskedOnce(q') && ReportedForGood(q') && Provisional(q')
  {
    DropProvisional(q, k);
    hide Counted, Slots, Lowered, Provisional;
    var q' := Drop(q, k);
    forall j | 0 <= j < |q'.outstanding| ensures q'.outstanding[j] == q.outstanding[if j < k then j else j + 1] {
    }
    assert Shape(q') && Partition(q') by { hide AskedOnce, ReportedForGood; }
    forall r: nat, mode | r < |q.relays| ensures TriedBy(q'.relays[r], mode) == TriedBy(q.relays[r], mode) {
    }
    assert AskedOnce(q') by { hide Partition, ReportedForGood; }
    forall i | i in q.reported ensures Containing(q'.outstanding, i) == 0 && AllTried(q', i) {
      CountsAround(q.outstanding, k, i);
    }
    hide Partition, AskedOnce;
  }

  lemma DropProvisional(q: State, k: nat)
    requires Core(q) && k < |q.outstanding|
    ensures Provisional(Drop(q, k))
  {
    hide Partition, Counted, Slots, AskedOnce, ReportedForGood;
  }

  /** A batch that ends leaves every index alive that it did not contain. */
  lemma DropKeeps(q: State, k: nat)
    requires Core(q) && k < |q.outstanding| && q.outstanding[k].relay < |q.relays|
    ensures var q' := Drop(q, k);
            Core(q') && Same(q, q') && q'.running == q.running && q'.reported == q.reported && q'.lost == q.lost && q'.fallbacks == q.fallbacks && Work(q') < Work(q)
            && forall i | i !in q.outstanding[k].indexes && Alive(q, i) :: Alive(q', i)
  {
    DropCounted(q, k);
    DropSlots(q, k);
    DropRest(q, k);
    UnstartedAround(q.outstanding, k);
    hide Partition, Counted, Slots, AskedOnce, ReportedForGood, Provisional, Lowered;
    var q' := Drop(q, k);
    forall i | i !in q.outstanding[k].indexes && Alive(q, i) ensures Alive(q', i) {
      CountsAround(q.outstanding, k, i);
      if i in q.missing && i !in q.reported && Containing(q'.outstanding, i) == 0 {
        var x :| 0 <= x < |q.relays| && i !in TriedBy(q.relays[x], i in q.fallbacks);
        assert TriedBy(q'.relays[x], i in q.fallbacks) == TriedBy(q.relays[x], i in q.fallbacks);
      }
    }
  }

  // ---- exhausted indexes ----

  ghost predicate OnlyReports(q: State, q': State) {
    && Same(q, q') && q'.outstanding == q.outstanding && q'.relays == q.relays && q'.asked == q.asked && q'.counters == q.counters
    && (q'.running ==> q.running) && q.reported <= q'.reported && q.lost <= q'.lost
  }

  lemma PromotedIsAlive(q: State, i: nat)
    requires Core(q)
    ensures i !in q.fallbacks ==> Alive(q.(fallbacks := q.fallbacks + {i}), i)
  {
    hide Partition, Counted, Slots, ReportedForGood, Containing;
    assert Ask(0, true, i) in q.asked <==> i in TriedBy(q.relays[0], true);
  }

  lemma ExhaustOneAlive(q: State, i: nat)
    requires Core(q)
    ensures var q' := ExhaustOne(q, i); (q.total.Some? || i == 0 ==> Alive(q', i)) && forall x | Alive(q, x) :: Alive(q', x)
  {
    var q' := ExhaustOne(q, i);
    PromotedIsAlive(q, i);
    assert i in q.missing && CountOf(q.counters, i) > 0 ==> Containing(q.outstanding, i) > 0;
    hide Core, Containing;
    forall x | Alive(q, x) ensures Alive(q', x) {
      if x != i && x in q.missing && x !in q.reported && Containing(q.outstanding, x) == 0 {
        var r :| 0 <= r < |q.relays| && x !in TriedBy(q.relays[r], x in q.fallbacks);
        assert x !in TriedBy(q'.relays[r], x in q'.fallbacks);
      }
    }
  }

  lemma ExhaustOneReported(q: State, i: nat)
    requires Core(q)
    ensures ReportedForGood(ExhaustOne(q, i))
  {
    hide Shape, Partition, Counted, Slots, AskedOnce, Provisional, Containing, NoDup, AllTried, CountOf;
    NobodyFetches(q, i);
    var q' := ExhaustOne(q, i);
    forall x | (x in q.fallbacks) == (x in q'.fallbacks) ensures AllTried(q', x) <==> AllTried(q, x) { SameTried(q, q', x); }
    if i !in q.reported { NoDupConcat(q.lost, [i]) by { NoDupOne(i); } }
  }

  lemma NoDupOne(i: nat)
    ensures NoDup([i])
  {
  }

  lemma NobodyFetches(q: State, i: nat)
    requires Core(q)
    ensures i in q.missing && CountOf(q.counters, i) == 0 ==> Containing(q.outstanding, i) == 0
  {
    hide Shape, Partition, Slots, AskedOnce, ReportedForGood, Provisional, Containing;
  }

  lemma SameTried(q: State, q': State, x: nat)
    requires q'.relays == q.relays && ((x in q.fallbacks) == (x in q'.fallbacks))
    ensures AllTried(q', x) <==> AllTried(q, x)
  {
  }

  lemma ExhaustOneCore(q: State, i: nat)
    requires Core(q)
    ensures var q' := ExhaustOne(q, i);
            Shape(q') && Partition(q') && Counted(q') && Slots(q') && AskedOnce(q') && Provisional(q')
  {
    hide Shape, Partition, Counted, Slots, AskedOnce, ReportedForGood, Provisional, ExhaustOne;
    var q' := ExhaustOne(q, i);
    ExhaustOneFields(q, i);
    SameCounts(q, q');
    SameAsks(q, q');
    ExhaustOneProvisional(q, i);
  }

  lemma ExhaustOneFields(q: State, i: nat)
    ensures var q' := ExhaustOne(q, i);
            && OnlyReports(q, q') && q'.running == q.running && q.fallbacks <= q'.fallbacks
            && (q'.fallbacks != q.fallbacks ==> q.canFallBack)
  {
    hide AllTried, CountOf;
  }

  /** Shape, partition and counts do not depend on promotions and reports. */
  lemma SameCounts(q: State, q': State)
    requires Shape(q) && Partition(q) && Counted(q) && Slots(q) && OnlyReports(q, q')
    ensures Shape(q') && Partition(q') && Counted(q') && Slots(q')
  {
    hide NoDup, Containing, ByRelay, Queued, CountOf;
  }

  lemma SameAsks(q: State, q': State)
    requires AskedOnce(q) && OnlyReports(q, q') && q.fallbacks <= q'.fallbacks && (q'.fallbacks != q.fallbacks ==> q.canFallBack)
    ensures AskedOnce(q')
  {
    hide NoDup, TriedBy;
  }

  lemma ExhaustOneProvisional(q: State, i: nat)
    requires Provisional(q)
    ensures Provisional(ExhaustOne(q, i))
  {
    hide AllTried, CountOf;
  }

  lemma ExhaustOneKeeps(q: State, i: nat)
    requires Core(q)
    ensures var q' := ExhaustOne(q, i);
            && Core(q') && OnlyReports(q, q') && q'.running == q.running && (q.total.Some? || i == 0 ==> Alive(q', i))
            && (forall x | Alive(q, x) :: Alive(q', x))
  {
    hide Shape, Partition, Counted, Slots, AskedOnce, ReportedForGood, Provisional, Alive, AllTried;
    ExhaustOneCore(q, i);
    ExhaustOneReported(q, i);
    ExhaustOneAlive(q, i);
  }

  lemma {:induction false} ExhaustKeeps(q: State, indexes: seq<nat>, w: World)
    requires Core(q)
    ensures var q' := Exhaust(q, indexes, w);
            && Core(q') && OnlyReports(q, q')
            && (forall x | Alive(q, x) :: Alive(q', x))
            && (q'.running ==> forall i | i in indexes && (q.total.Some? || i == 0) :: Alive(q', i))
    decreases |indexes|
  {
    hide Core, Alive, ExhaustOne;
    if indexes != [] && q.running {
      ExhaustOneKeeps(q, indexes[0]);
      var next := ExhaustOne(q, indexes[0]);
      var stopped := if |next.lost| > |q.lost| && w.aborts(indexes[0]) then next.(running := false) else next;
      Stopped(next);
      forall x | Alive(next, x) ensures Alive(stopped, x) { StoppedAlive(next, x); }
      ExhaustKeeps(stopped, indexes[1..], w);
      forall i | i in indexes ensures i == indexes[0] || i in indexes[1..] { }
    }
  }

  // ---- finishing ----

  /** When the last batch has ended and a round launches nothing, every relay was asked for every missing index. */
  lemma StuckIsTried(q: State, w: World)
    requires Core(q) && q.running && q.outstanding == [] && q.missing != [] && Schedule(q, w).outstanding == []
    ensures forall i | i in q.missing :: AllTried(q, i)
  {
    forall i | i in q.missing ensures AllTried(q, i) {
      forall r: nat | r < |q.relays| ensures i in TriedBy(q.relays[r], i in q.fallbacks) {
        NothingToAsk(q, 0, w, r, i);
      }
    }
  }

  /** When nothing more can be asked, every missing index that is watched was reported already. */
  lemma StuckIsReported(q: State, w: World)
    requires Core(q) && AllAlive(q) && q.running && q.outstanding == [] && q.missing != [] && Schedule(q, w).outstanding == []
    ensures forall i | i in q.missing && Watched(q, i) :: i in q.reported
  {
    StuckIsTried(q, w);
    hide Core, AllTried, Schedule;
    forall i | i in q.missing && Watched(q, i) ensures i in q.reported {
      assert AllTried(q, i);
      assert Alive(q, i);
    }
  }

  /** What the last check makes of an exhausted index that nobody fetches: reported, or promoted. */
  ghost predicate Closed(q: State, i: nat) {
    i in q.missing ==> i in q.reported || (q.canFallBack && i in q.fallbacks)
  }

  lemma {:induction false} ExhaustCloses(q: State, indexes: seq<nat>, w: World)
    requires Core(q) && q.total.Some? && q.outstanding == []
    requires forall i | i in indexes && i in q.missing :: AllTried(q, i) || Closed(q, i)
    ensures var q' := Exhaust(q, indexes, w);
            && (q'.running ==> forall i | i in indexes :: Closed(q', i))
            && (forall i | Closed(q, i) :: Closed(q', i))
    decreases |indexes|
  {
    if indexes != [] && q.running {
      ExhaustOneKeeps(q, indexes[0]);
      ExhaustOneCloses(q, indexes[0]);
      var next := ExhaustOne(q, indexes[0]);
      var stopped := if |next.lost| > |q.lost| && w.aborts(indexes[0]) then next.(running := false) else next;
      Stopped(next);
      forall i | i in indexes ensures i == indexes[0] || i in indexes[1..] { }
      forall i | i in indexes[1..] && i in q.missing ensures AllTried(stopped, i) || Closed(stopped, i) {
        assert i in indexes;
        ExhaustOneTried(q, indexes[0], i);
      }
      hide Core, Alive, ExhaustOne, AllTried;
      ExhaustCloses(stopped, indexes[1..], w);
    }
  }

  lemma ExhaustOneCloses(q: State, i: nat)
    requires Core(q) && q.total.Some? && q.outstanding == [] && (i in q.missing ==> AllTried(q, i) || Closed(q, i))
    ensures var q' := ExhaustOne(q, i); Closed(q', i) && forall x | Closed(q, x) :: Closed(q', x)
  {
    assert i in q.missing ==> CountOf(q.counters, i) == Containing(q.outstanding, i) == 0;
    hide Shape, Partition, Counted, Slots, ReportedForGood, Provisional, Containing, AllTried;
  }

  lemma ExhaustOneTried(q: State, i: nat, x: nat)
    requires AllTried(q, x) || Closed(q, x)
    ensures var q' := ExhaustOne(q, i); AllTried(q', x) || Closed(q', x)
    ensures var q' := ExhaustOne(q, i).(running := false); AllTried(q', x) || Closed(q', x)
  {
    if AllTried(q, x) && !Closed(q, x) && (x in ExhaustOne(q, i).fallbacks) == (x in q.fallbacks) {
      assert AllTried(ExhaustOne(q, i), x);
      assert AllTried(ExhaustOne(q, i).(running := false), x);
    }
  }

  /** With nothing outstanding, the last round either launches again or concludes the run. */
  lemma LastRound(q: State, w: World)
    requires Core(q) && q.running && AllAlive(q) && q.outstanding == [] && q.missing != [] && Schedule(q, w).outstanding == []
    ensures Schedule(q, w) == q
    ensures var last := Exhaust(q, q.missing, w); Core(last) && OnlyReports(q, last) && (last.running ==> Concluded(last))
  {
    hide Core, Schedule, Exhaust, Alive, AllTried;
    StuckIsTried(q, w);
    StuckIsReported(q, w);
    ScheduleKeeps(q, w);
    ExhaustKeeps(q, q.missing, w);
    if q.total.Some? { ExhaustCloses(q, q.missing, w); }
    InformedIsKnown(q);
  }

  lemma InformedIsKnown(q: State)
    requires Core(q)
    ensures q.informed ==> q.total.Some?
  {
    hide Shape, Partition, Counted, Slots, ReportedForGood, AskedOnce;
  }

  lemma WatchedIsKnown(q: State, i: nat)
    requires Core(q)
    ensures i in q.missing && Watched(q, i) ==> q.total.Some? || i == 0
  {
    hide Shape, Counted, Slots, ReportedForGood, AskedOnce;
  }

  lemma MaybeFinishKeeps(q: State, w: World)
    requires Core(q) && (q.running ==> AllAlive(q)) && !q.finished
    ensures Inv(MaybeFinish(q, w)) && Work(MaybeFinish(q, w)) <= Work(q)
  {
    hide Core, Schedule, Exhaust, Alive;
    if q.running && q.outstanding == [] {
      ScheduleKeeps(q, w);
      var scheduled := Schedule(q, w);
      if q.missing == [] || scheduled.outstanding == [] {
        var last := if q.missing == [] then q else Exhaust(q, q.missing, w);
        if q.missing != [] { LastRound(q, w); }
        Stopped(last);
        FinishedCore(last.(running := false));
        assert last.running ==> Concluded(last);
        assert MaybeFinish(q, w) == if last.running then last.(running := false, finished := true) else last;
      } else {
        assert AllAlive(scheduled);
      }
    }
  }

  lemma FinishedCore(q: State)
    requires Core(q)
    ensures Core(q.(finished := true))
  {
    hide Containing, ByRelay, Queued, NoDup, CountOf;
    assert forall i :: AllTried(q, i) ==> AllTried(q.(finished := true), i);
  }

  lemma EndKeeps(q: State, k: nat, w: World)
    requires Inv(q) && k < |q.outstanding| && q.outstanding[k].relay < |q.relays|
    ensures Inv(EndBatch(q, k, w)) && Work(EndBatch(q, k, w)) < Work(q)
  {
    hide Core, Drop, Exhaust, Schedule, MaybeFinish, Alive;
    DropKeeps(q, k);
    var dropped := Drop(q, k);
    var idx := q.outstanding[k].indexes;
    if q.running {
      ExhaustKeeps(dropped, idx, w);
      var reported := Exhaust(dropped, idx, w);
      ScheduleKeeps(reported, w);
      InformedIsKnown(q);
      if reported.running {
        forall i | i in q.missing && Watched(q, i) ensures Alive(reported, i) {
          WatchedIsKnown(q, i);
          if i !in idx { assert Alive(q, i); }
        }
        assert AllAlive(Schedule(reported, w));
      }
      MaybeFinishKeeps(Schedule(reported, w), w);
    }
  }

  // ---- runs ----

  datatype Event =
    | Start(k: nat)
    | Chunk(k: nat, index: nat, total: nat, world: World)
    | HalfBatch(relay: nat, started: bool)
    | End(k: nat, world: World)
    | Abort

  ghost predicate Enabled(q: State, e: Event) {
    match e
    case Start(k) => k < |q.outstanding| && !q.outstanding[k].started
    case Chunk(k, _, _, _) => k < |q.outstanding| && q.outstanding[k].started
    case HalfBatch(r, _) => r < |q.relays|
    case End(k, _) => k < |q.outstanding|
    case Abort => true
  }

  ghost function Happen(q: State, e: Event): State
    requires Shape(q) && Enabled(q, e)
  {
    match e
    case Start(k) => StartBatch(q, k)
    case Chunk(k, i, total, w) => Receive(q, k, i, total, w)
    case HalfBatch(r, started) => Request(q, r, started)
    case End(k, w) => EndBatch(q, k, w)
    case Abort => q.(running := false)
  }

  /** `run()` on a fresh downloader whose cached indexes lie in the range. */
  ghost predicate Fresh(q: State) {
    && q.running && !q.finished && |q.relays| > 0 && q.batchSize > 0 && q.start <= q.end <= q.maxEnd && NoDup(q.missing)
    && (q.informed <==> q.total.Some?) && q.scope == q.end
    && q.covered == q.cached && (forall i | i in q.cached :: q.start <= i <= q.end)
    && (forall i: nat :: i in q.missing <==> q.start <= i <= q.end && i !in q.cached)
    && (forall r | 0 <= r < |q.relays| :: q.relays[r] == Relay({}, {}, false, 0))
    && q.counters == map[] && q.fallbacks == {} && q.reported == {} && q.outstanding == []
    && q.asked == [] && q.delivered == [] && q.lost == []
  }

  function Begin(q: State, w: World): State {
    MaybeFinish(Schedule(q, w), w)
  }

  lemma BeginKeeps(q: State, w: World)
    requires Fresh(q)
    ensures Inv(Begin(q, w))
  {
    assert Core(q);
    forall i | i in q.missing ensures Alive(q, i) { assert i !in TriedBy(q.relays[0], false); }
    ScheduleKeeps(q, w);
    hide Core, Alive, Schedule, MaybeFinish;
    MaybeFinishKeeps(Schedule(q, w), w);
  }

  /** Every event keeps the invariant, and an event that changes anything uses up work. */
  lemma EventKeeps(q: State, e: Event)
    requires Inv(q) && Enabled(q, e)
    ensures var q' := Happen(q, e); Inv(q') && (q' == q || Work(q') < Work(q))
  {
    assert Shape(q);
    hide Core, Alive, Request, EndBatch, Receive;
    match e {
      case Start(k) => { StartKeeps(q, k); }
      case Chunk(k, i, total, w) => { ReceiveKeeps(q, k, i, total, w); }
      case HalfBatch(r, started) => { RequestKeeps(q, r, started); }
      case End(k, w) => { EndKeeps(q, k, w); }
      case Abort => { Stopped(q); }
    }
  }

  lemma StoppedAlive(q: State, i: nat)
    requires Alive(q, i)
    ensures Alive(q.(running := false), i)
  {
    hide Containing;
  }

  lemma Stopped(q: State)
    requires Core(q)
    ensures Core(q.(running := false))
  {
    hide Containing, ByRelay, Queued, NoDup, CountOf;
    assert forall i :: AllTried(q, i) ==> AllTried(q.(running := false), i);
  }

  // ---- whole runs ----

  ghost predicate IsRun(states: seq<State>, events: seq<Event>) {
    && |states| == |events| + 1
    && forall k | 0 <= k < |events| ::
         Shape(states[k]) && Enabled(states[k], events[k]) && states[k + 1] == Happen(states[k], events[k])
  }

  lemma {:induction false} RunKeeps(states: seq<State>, events: seq<Event>, n: nat)
    requires IsRun(states, events) && Inv(states[0]) && n < |states|
    ensures Inv(states[n])
  {
    if n > 0 {
      RunKeeps(states, events, n - 1);
      EventKeeps(states[n - 1], events[n - 1]);
      hide Inv, Happen;
      assert states[n] == Happen(states[n - 1], events[n - 1]);
    }
  }

  /** Events of a run that changed anything. */
  ghost function Effective(states: seq<State>): nat {
    if |states| <= 1 then 0 else (if states[0] != states[1] then 1 else 0) + Effective(states[1..])
  }

  lemma {:induction false} RunTerminates(states: seq<State>, events: seq<Event>)
    requires IsRun(states, events) && Inv(states[0])
    ensures Effective(states) + Work(states[|states| - 1]) <= Work(states[0])
    ensures Work(states[|states| - 1]) >= 0
  {
    RunKeeps(states, events, |states| - 1);
    AsksBounded(states[|states| - 1]);
    if events != [] {
      EventKeeps(states[0], events[0]);
      hide Inv, Happen, Work;
      assert states[1] == Happen(states[0], events[0]);
      Suffix(states, events);
      RunTerminates(states[1..], events[1..]);
    }
  }

  lemma Suffix(states: seq<State>, events: seq<Event>)
    requires IsRun(states, events) && events != []
    ensures IsRun(states[1..], events[1..])
  {
    hide Shape, Enabled, Happen;
    forall k | 0 <= k < |events[1..]|
      ensures Shape(states[1..][k]) && Enabled(states[1..][k], events[1..][k])
           && states[1..][k + 1] == Happen(states[1..][k], events[1..][k])
    {
      assert states[1..][k] == states[k + 1] && events[1..][k] == events[k + 1];
    }
  }

  ghost function Times(s: seq<nat>, i: nat): nat { multiset(s)[i] }

  /**
   * The main theorem: from a fresh downloader, after any events in any order, while batches are outstanding or not,
   * no index is both delivered and reported, none twice, and no relay was asked twice for one index in one mode;
   * a run that is still running has a batch to wait for; and a finished run that learned the total has delivered or
   * reported every index of the range that was not cached, exactly once, unless the any-author fallback met a total that
   * was not known from the start: then an index other than 0 that was asked for in ignorance may be left.
   */
  lemma EachIndexOnce(q: State, w: World, states: seq<State>, events: seq<Event>, n: nat, i: nat)
    requires Fresh(q) && IsRun(states, events) && states[0] == Begin(q, w) && n < |states|
    requires states[n].start <= i <= states[n].end && i !in q.cached
    ensures var p := states[n];
            && NoDup(p.asked)
            && (p.running ==> p.outstanding != [])
            && Times(p.delivered, i) + Times(p.lost, i) <= 1
            && (p.finished && p.total.Some? && Times(p.delivered, i) + Times(p.lost, i) == 0 ==>
                  !q.informed && q.canFallBack && 0 < i <= q.end && i in p.fallbacks)
  {
    BeginKeeps(q, w);
    RunKeeps(states, events, n);
    RunFixed(states, events, n);
    BeginFixed(q, w);
    var p := states[n];
    NoDupMultiplicity(p.delivered, i);
    NoDupMultiplicity(p.lost, i);
    hide Counted, Slots, AskedOnce, AllTried, Containing, IsRun, Begin, Alive, NoDup;
    assert i in p.delivered <==> multiset(p.delivered)[i] > 0;
    assert i in p.lost <==> multiset(p.lost)[i] > 0;
  }

  ghost predicate Fixed(q: State, q': State) {
    && q'.start == q.start && q'.maxEnd == q.maxEnd && q'.scope == q.scope && q'.cached == q.cached
    && q'.canFallBack == q.canFallBack && q'.informed == q.informed
    && q.delivered <= q'.delivered && q.lost <= q'.lost
    && (q'.total == q.total ==> q'.end == q.end)
    && (q.total.Some? ==> q'.total == q.total)
    && (q.total != q'.total ==> q'.end == Min(q.maxEnd, q'.total.value - 1))
  }

  lemma {:induction false} RunFixed(states: seq<State>, events: seq<Event>, n: nat)
    requires IsRun(states, events) && Inv(states[0]) && n < |states|
    ensures Fixed(states[0], states[n])
  {
    if n > 0 {
      RunFixed(states, events, n - 1);
      RunKeeps(states, events, n - 1);
      EventFixed(states[n - 1], events[n - 1]);
      hide Inv, Happen;
      assert states[n] == Happen(states[n - 1], events[n - 1]);
    }
  }

  lemma FinishFixed(q: State, w: World)
    requires Core(q)
    ensures Fixed(q, MaybeFinish(q, w))
  {
    ScheduleKeeps(q, w);
    ExhaustKeeps(Schedule(q, w), Schedule(q, w).missing, w);
    hide Core, Schedule, Exhaust, Alive;
  }

  lemma BeginFixed(q: State, w: World)
    requires Fresh(q)
    ensures Fixed(q, Begin(q, w))
  {
    assert Core(q);
    ScheduleKeeps(q, w);
    hide Core, Schedule, MaybeFinish, Alive;
    FinishFixed(Schedule(q, w), w);
  }

  lemma EventFixed(q: State, e: Event)
    requires Inv(q) && Enabled(q, e)
    ensures Fixed(q, Happen(q, e))
  {
    assert Shape(q);
    hide Core, Alive, Request, Schedule, Exhaust, MaybeFinish, Drop;
    match e {
      case Start(k) => { }
      case Chunk(k, i, total, w) => { ReceiveFixed(q, k, i, total, w); hide Receive; }
      case HalfBatch(r, started) => { RequestKeeps(q, r, started); }
      case End(k, w) => { EndFixed(q, k, w); hide EndBatch; }
      case Abort => { }
    }
  }

  /** Only a chunk tells a total. */
  lemma EventTells(q: State, e: Event)
    requires Inv(q) && Enabled(q, e)
    ensures Shape(q) && (Happen(q, e).total != q.total ==> e.Chunk? && Happen(q, e).total == Some(e.total))
  {
    assert Shape(q);
    hide Core, Alive, Request, Schedule, Exhaust, MaybeFinish, Drop;
    match e {
      case Start(k) => { }
      case Chunk(k, i, total, w) => { ReceiveTells(q, k, i, total, w); hide Receive; }
      case HalfBatch(r, started) => { RequestKeeps(q, r, started); }
      case End(k, w) => { EndTells(q, k, w); hide EndBatch; }
      case Abort => { }
    }
  }

  lemma ReceiveTells(q: State, k: nat, i: nat, total: nat, w: World)
    requires Inv(q) && k < |q.outstanding|
    ensures var q' := Receive(q, k, i, total, w); q'.total == q.total || q'.total == Some(total)
  {
    hide Core, Alive, Schedule;
    if q.total.None? && q.start < total {
      BoundedKeeps(q, total);
      ScheduleKeeps(Bounded(q, total), w);
    }
  }

  lemma FinishTells(q: State, w: World)
    requires Core(q)
    ensures MaybeFinish(q, w).total == q.total
  {
    ScheduleKeeps(q, w);
    ExhaustKeeps(Schedule(q, w), Schedule(q, w).missing, w);
    hide Core, Schedule, Exhaust, Alive;
  }

  lemma BeginTells(q: State, w: World)
    requires Fresh(q)
    ensures Begin(q, w).total == q.total
  {
    assert Core(q);
    ScheduleKeeps(q, w);
    hide Core, Schedule, MaybeFinish, Alive;
    FinishTells(Schedule(q, w), w);
  }

  lemma EndTells(q: State, k: nat, w: World)
    requires Inv(q) && k < |q.outstanding| && q.outstanding[k].relay < |q.relays|
    ensures EndBatch(q, k, w).total == q.total
  {
    hide Core, Alive, Schedule, Exhaust, MaybeFinish, Drop;
    DropKeeps(q, k);
    var dropped := Drop(q, k);
    ExhaustKeeps(dropped, q.outstanding[k].indexes, w);
    var reported := Exhaust(dropped, q.outstanding[k].indexes, w);
    ScheduleKeeps(reported, w);
    FinishTells(Schedule(reported, w), w);
  }

  lemma ReceiveFixed(q: State, k: nat, i: nat, total: nat, w: World)
    requires Inv(q) && k < |q.outstanding|
    ensures Fixed(q, Receive(q, k, i, total, w))
  {
    hide Core, Alive, Schedule;
    if q.total.None? && q.start < total {
      BoundedKeeps(q, total);
      ScheduleKeeps(Bounded(q, total), w);
    }
  }

  lemma EndFixed(q: State, k: nat, w: World)
    requires Inv(q) && k < |q.outstanding| && q.outstanding[k].relay < |q.relays|
    ensures Fixed(q, EndBatch(q, k, w))
  {
    hide Core, Alive, Schedule, Exhaust, MaybeFinish, Drop;
    DropKeeps(q, k);
    var dropped := Drop(q, k);
    ExhaustKeeps(dropped, q.outstanding[k].indexes, w);
    var reported := Exhaust(dropped, q.outstanding[k].indexes, w);
    ScheduleKeeps(reported, w);
    FinishFixed(Schedule(reported, w), w);
  }

  // ---- counting what a finished run accounts for ----

  function Elements(s: seq<nat>): set<nat> {
    if s == [] then {} else {s[0]} + Elements(s[1..])
  }

  lemma {:induction false} ElementsOf(s: seq<nat>)
    ensures forall i :: i in Elements(s) <==> i in s
    ensures NoDup(s) ==> |Elements(s)| == |s|
  {
    if s != [] {
      ElementsOf(s[1..]);
      if NoDup(s) { assert s[0] !in s[1..] && NoDup(s[1..]); }
    }
  }

  function Between(start: nat, end: int): set<nat>
    decreases end
  {
    if end < start then {} else Between(start, end - 1) + {end}
  }

  lemma {:induction false} BetweenIs(start: nat, end: int)
    requires start <= end + 1
    ensures forall i :: i in Between(start, end) <==> start <= i <= end
    ensures |Between(start, end)| == end - start + 1
    decreases end
  {
    if start <= end { BetweenIs(start, end - 1); }
  }

  function CachedIn(p: State): set<nat> { set i | i in p.cached && i <= p.end }

  /** How many indexes a finished range may leave unaccounted for: those after 0 that could be asked for without a total. */
  ghost function Allowance(p: State): nat { if p.informed || !p.canFallBack then 0 else p.scope }

  /**
   * A finished range that learned its total accounts for its indexes: cached, delivered and reported ones add up to its
   * length, or, if the any-author fallback met an unknown total, to at most the provisional end less.
   */
  lemma FinishedCounts(p: State)
    requires Inv(p) && p.finished && p.total.Some?
    ensures p.end - p.start + 1 - Allowance(p) <= |CachedIn(p)| + |p.delivered| + |p.lost| <= p.end - p.start + 1
  {
    hide Alive, Counted, Slots, AskedOnce;
    PartsBound(p);
    BetweenIs(1, Allowance(p));
    forall i | i in p.missing ensures i in p.reported || i in Between(1, Allowance(p)) { hide Partition, ReportedForGood, Between; }
    hide Concluded, Between, Allowance;
    PartsCount(p, Between(1, Allowance(p)));
  }

  /** No run accounts for more indexes than the range has, and before the total is known for no more than index 0. */
  lemma PartsBound(p: State)
    requires Core(p)
    ensures |CachedIn(p)| + |p.delivered| + |p.lost| <= p.end - p.start + 1
    ensures p.total.None? ==> p.delivered == [] && |p.lost| <= 1
  {
    ElementsOf(p.delivered);
    ElementsOf(p.lost);
    BetweenIs(p.start, p.end);
    var r, c, d, l := Between(p.start, p.end), CachedIn(p), Elements(p.delivered), Elements(p.lost);
    forall i: nat
      ensures i in c || i in d || i in l ==> i in r
      ensures !(i in c && i in d) && !(i in c && i in l) && !(i in d && i in l)
    {
      InRange(p, i);
      hide Partition, ReportedForGood, NoDup, Elements, Between, Counted, Slots, AskedOnce, Shape, Provisional;
    }
    if p.total.None? { OnlyZero(p); }
    hide *;
    DisjointSum(c + d + l, c, d, l);
    Smaller(c + d + l, r);
  }

  lemma Smaller(a: set<nat>, b: set<nat>)
    requires forall i :: i in a ==> i in b
    ensures |a| <= |b|
  {
    assert b == a + (b - a);
  }

  lemma InRange(p: State, i: nat)
    requires Core(p)
    ensures i in CachedIn(p) || i in p.delivered || i in p.lost ==> p.start <= i <= p.end
    ensures !(i in CachedIn(p) && i in p.delivered) && !(i in CachedIn(p) && i in p.lost) && !(i in p.delivered && i in p.lost)
  {
    hide AllTried, Containing, NoDup, Counted, Slots, AskedOnce, Provisional;
  }

  lemma OnlyZero(p: State)
    requires Core(p) && p.total.None?
    ensures p.delivered == [] && |p.lost| <= 1
  {
    hide AllTried, Containing, Counted, Slots, AskedOnce, Partition;
    AtMostOneZero(p.lost);
  }

  lemma AtMostOneZero(s: seq<nat>)
    ensures |s| > 1 && (forall i | i in s :: i == 0) ==> !NoDup(s)
  {
    if |s| > 1 { assert s[0] in s && s[1] in s; }
  }

  lemma PartsCount(p: State, f: set<nat>)
    requires Partition(p) && ReportedForGood(p) && p.start <= p.end
    requires forall i | i in p.missing :: i in p.reported || i in f
    ensures |CachedIn(p)| + |p.delivered| + |p.lost| >= p.end - p.start + 1 - |f|
  {
    ElementsOf(p.delivered);
    ElementsOf(p.lost);
    BetweenIs(p.start, p.end);
    var r, c, d, l := Between(p.start, p.end), CachedIn(p), Elements(p.delivered), Elements(p.lost);
    forall i: nat ensures i in r ==> i in c || i in d || i in l || i in f {
      PartOf(p, f, i);
      hide Partition, ReportedForGood, NoDup, Elements, Between;
    }
    hide *;
    Smaller(r, c + d + l + f);
    UnionSize(c + d + l, f);
    UnionSize(c + d, l);
    UnionSize(c, d);
  }

  lemma UnionSize(a: set<nat>, b: set<nat>)
    ensures |a + b| <= |a| + |b|
  {
    assert a + b == a + (b - a);
    assert b == (b - a) + (a * b);
  }

  lemma PartOf(p: State, f: set<nat>, i: nat)
    requires Partition(p) && ReportedForGood(p) && (i in p.missing ==> i in p.reported || i in f)
    ensures p.start <= i <= p.end ==> i in CachedIn(p) || i in p.delivered || i in p.lost || i in f
  {
    hide AllTried, Containing, NoDup;
  }

  lemma DisjointSum(r: set<nat>, a: set<nat>, b: set<nat>, c: set<nat>)
    requires forall i :: i in r <==> i in a || i in b || i in c
    requires forall i :: !(i in a && i in b) && !(i in a && i in c) && !(i in b && i in c)
    ensures |r| == |a| + |b| + |c|
  {
    assert r == (a + b) + c;
    assert a !! b && (a + b) !! c;
  }
}
