/** Where the range downloader forgets an index: the any-author fallback and a total that is discovered late. */
module RangeForgotten {
  import opened Basics
  import opened Sorting
  import opened BatchSelection
  import opened RangeDownload
  import opened RangeSafety

  // ---- exactly when ----

  lemma ExhaustOneExactly(q: State, i: nat)
    requires Core(q) && q.total.Some? && q.outstanding == [] && i in q.missing && AllTried(q, i)
    ensures var q' := ExhaustOne(q, i);
            && (i in q'.reported <==> i in q.reported || i in q.fallbacks || !q.canFallBack)
            && forall x | x != i :: (x in q'.reported <==> x in q.reported) && (x in q'.fallbacks <==> x in q.fallbacks)
  {
    assert CountOf(q.counters, i) == Containing(q.outstanding, i) == 0;
    hide Shape, Partition, Counted, Slots, ReportedForGood, AskedOnce, Provisional, Containing;
  }

  lemma {:induction false} ExhaustExactly(q: State, indexes: seq<nat>, w: World)
    requires Core(q) && q.total.Some? && q.outstanding == [] && NoDup(indexes)
    requires forall i | i in indexes :: i in q.missing && AllTried(q, i)
    ensures var q' := Exhaust(q, indexes, w);
            && (q'.running ==> forall i | i in indexes :: i in q'.reported <==> i in q.reported || i in q.fallbacks || !q.canFallBack)
            && forall x | x !in indexes :: (x in q'.reported <==> x in q.reported) && (x in q'.fallbacks <==> x in q.fallbacks)
    decreases |indexes|
  {
    hide Core, AllTried, ExhaustOne, Alive;
    if indexes != [] && q.running {
      var i, rest := indexes[0], indexes[1..];
      assert i in indexes && i !in rest;
      ExhaustOneKeeps(q, i);
      ExhaustOneExactly(q, i);
      var next := ExhaustOne(q, i);
      var stopped := if |next.lost| > |q.lost| && w.aborts(i) then next.(running := false) else next;
      Stopped(next);
      forall x | x in indexes ensures x == i || x in rest { }
      forall x | x in rest ensures x in stopped.missing && AllTried(stopped, x) {
        assert x in indexes && x != i;
        SameTried(q, stopped, x);
      }
      ExhaustExactly(stopped, rest, w);
    }
  }

  /**
   * The check that ends a run: an index that is still missing goes unreported exactly when the any-author fallback is
   * available and the index was neither promoted nor reported before. It is promoted, and nobody asks for it any more.
   */
  lemma LastCheckExactly(q: State, w: World, i: nat)
    requires Core(q) && q.running && !q.finished && q.outstanding == [] && Schedule(q, w).outstanding == [] && q.total.Some?
    requires MaybeFinish(q, w).finished && i in q.missing
    ensures var last := MaybeFinish(q, w);
            && (i !in last.reported <==> q.canFallBack && i !in q.fallbacks && i !in q.reported)
            && last.missing == q.missing && last.asked == q.asked
  {
    hide Core, AllTried, Schedule, Exhaust, Alive;
    StuckIsTried(q, w);
    ScheduleKeeps(q, w);
    assert Schedule(q, w) == q;
    MissingDistinct(q);
    ExhaustExactly(q, q.missing, w);
    ExhaustKeeps(q, q.missing, w);
    NotFinishedWhileRunning(q, w);
  }

  lemma MissingDistinct(q: State)
    requires Core(q)
    ensures NoDup(q.missing)
  {
    hide Partition, Counted, Slots, ReportedForGood, AskedOnce, Provisional;
  }

  lemma NotFinishedWhileRunning(q: State, w: World)
    requires q.running && q.outstanding == [] && Schedule(q, w) == q && q.missing != []
    ensures MaybeFinish(q, w) == var last := Exhaust(q, q.missing, w); if last.running then last.(running := false, finished := true) else last
  {
    hide Schedule, Exhaust;
  }

  // ---- hunting: asking in vain while the total is unknown ----

  /** Batches start at once, and reporting an index does not abort the run. */
  const EAGER := World(_ => true, _ => false)

  /** Every batch was started, and none is empty. */
  ghost predicate Eager(q: State) {
    forall k | 0 <= k < |q.outstanding| :: q.outstanding[k].started && q.outstanding[k].indexes != []
  }

  ghost predicate OwnOpen(q: State, r: nat)
    requires r < |q.relays|
  {
    exists i | i in q.missing :: Open(q, r, false, i)
  }

  ghost predicate OwnBatch(q: State, r: nat) {
    exists k | 0 <= k < |q.outstanding| :: q.outstanding[k].relay == r && !q.outstanding[k].fallback
  }

  /** A relay that may still be asked for its own authors is being asked. */
  ghost predicate Busy(q: State, r: nat)
    requires r < |q.relays|
  {
    OwnOpen(q, r) ==> OwnBatch(q, r)
  }

  /** Index 0 is promoted only when no own-author batch contains it. */
  ghost predicate ZeroApart(q: State) {
    0 in q.fallbacks ==> forall k | 0 <= k < |q.outstanding| && !q.outstanding[k].fallback :: 0 !in q.outstanding[k].indexes
  }

  /** The downloader asks on, has got nothing, and gave nothing up. */
  ghost predicate Hunting(q: State) {
    && Inv(q) && q.running && !q.finished && q.total.None? && q.canFallBack && q.start == 0 < q.end && q.covered == {}
    && q.reported == {} && q.fallbacks <= {0} && Eager(q) && ZeroApart(q)
    && forall r | 0 <= r < |q.relays| :: Busy(q, r)
  }

  lemma {:induction false} NothingQueued(outs: seq<Batch>, r: nat)
    requires forall k | 0 <= k < |outs| :: outs[k].started
    ensures Queued(outs, r) == 0
  {
    if outs != [] { NothingQueued(outs[1..], r); }
  }

  /** With everything started, only a full relay may not be asked. */
  lemma MayAsk(q: State, r: nat)
    requires Core(q) && q.running && Eager(q) && r < |q.relays|
    ensures MayRequest(q, r) <==> ByRelay(q.outstanding, r) < MAX_RELAY_BATCHES
  {
    NothingQueued(q.outstanding, r);
    hide Partition, Counted, AskedOnce, ReportedForGood, Provisional, ByRelay, Queued;
  }

  /** What a request does in a hunt. */
  lemma RequestHunts(q: State, r: nat)
    requires Core(q) && r < |q.relays| && Eager(q) && ZeroApart(q)
    ensures var q' := Request(q, r, true);
            && Eager(q') && ZeroApart(q') && |q'.relays| == |q.relays|
            && (forall x | 0 <= x < |q.relays| && x != r :: q'.relays[x] == q.relays[x] && (Busy(q, x) ==> Busy(q', x)))
            && (Busy(q, r) || MayRequest(q, r) ==> Busy(q', r))
  {
    SelectionOpen(q, r);
    OwnFirst(q, r);
    hide Core, SelectBatch, Bumped, Asks;
    var (fallback, idx) := SelectBatch(q, r);
    if MayRequest(q, r) && idx != [] {
      LaunchHunts(q, r, fallback, idx);
    }
  }

  lemma OwnFirst(q: State, r: nat)
    requires Shape(q) && r < |q.relays|
    ensures OwnOpen(q, r) ==> SelectBatch(q, r).1 != [] && !SelectBatch(q, r).0
  {
    ModeOpen(q, r, false);
    hide SelectMode, Open, Indexes;
  }

  lemma LaunchHunts(q: State, r: nat, fallback: bool, idx: seq<nat>)
    requires r < |q.relays| && Eager(q) && ZeroApart(q) && idx != []
    requires forall i | i in idx :: i in q.missing && Open(q, r, fallback, i)
    requires OwnOpen(q, r) ==> !fallback
    ensures var q' := Launch(q, r, fallback, idx, true);
            && Eager(q') && ZeroApart(q') && |q'.relays| == |q.relays|
            && (forall x | 0 <= x < |q.relays| && x != r :: q'.relays[x] == q.relays[x] && (Busy(q, x) ==> Busy(q', x)))
            && Busy(q', r)
  {
    hide Bumped, Asks;
    var q' := Launch(q, r, fallback, idx, true);
    forall x | 0 <= x < |q.relays| && x != r && Busy(q, x) ensures Busy(q', x) {
      if OwnOpen(q', x) {
        var i :| i in q'.missing && Open(q', x, false, i);
        assert i in q.missing && Open(q, x, false, i);
        BatchStays(q, q', x);
      }
    }
    if OwnOpen(q', r) {
      var i :| i in q'.missing && Open(q', r, false, i);
      assert i in q.missing && Open(q, r, false, i);
      assert q'.outstanding[|q.outstanding|] == Batch(r, fallback, idx, true);
    }
  }

  lemma BatchStays(q: State, q': State, r: nat)
    requires q.outstanding <= q'.outstanding
    ensures OwnBatch(q, r) ==> OwnBatch(q', r)
  {
    if OwnBatch(q, r) {
      var k :| 0 <= k < |q.outstanding| && q.outstanding[k].relay == r && !q.outstanding[k].fallback;
      assert q'.outstanding[k] == q.outstanding[k];
    }
  }

  lemma {:induction false} RoundHunts(q: State, from: nat)
    requires Core(q) && Eager(q) && ZeroApart(q)
    requires forall r | 0 <= r < |q.relays| :: Busy(q, r) || (r >= from && MayRequest(q, r))
    ensures var q' := RequestFrom(q, from, EAGER);
            Eager(q') && ZeroApart(q') && |q'.relays| == |q.relays| && forall r | 0 <= r < |q'.relays| :: Busy(q', r)
    decreases |q.relays| - from
  {
    if from < |q.relays| {
      hide Core, Request, Busy, Eager, ZeroApart;
      RequestKeeps(q, from, true);
      RequestHunts(q, from);
      RoundHunts(Request(q, from, true), from + 1);
    }
  }

  /** A round of requests keeps asking as long as index 0 has a relay left, so the run does not end there. */
  lemma RoundGoesOn(q: State, w: World)
    requires Core(q) && q.running && Alive(q, 0) && 0 in q.missing && 0 !in q.reported
    ensures var q' := Schedule(q, w); q'.outstanding != [] && MaybeFinish(q', w) == q'
  {
    ScheduleKeeps(q, w);
    NothingHeld(q.outstanding, 0);
    if Schedule(q, w).outstanding == [] { StuckIsTried(q, w); }
    hide Core, Schedule, Exhaust;
  }

  lemma NothingHeld(outs: seq<Batch>, i: nat)
    ensures outs == [] ==> Containing(outs, i) == 0
  {
  }

  /** In a hunt the end of an own-author batch promotes index 0 or does nothing else. */
  lemma {:induction false} ExhaustHunts(q: State, indexes: seq<nat>)
    requires Core(q) && q.running && q.total.None? && q.canFallBack && NoDup(indexes) && (0 in indexes ==> 0 !in q.fallbacks)
    ensures var q' := Exhaust(q, indexes, EAGER);
            q' == q || (q' == q.(fallbacks := q.fallbacks + {0}) && Containing(q.outstanding, 0) == 0)
    decreases |indexes|
  {
    if indexes != [] {
      var i, rest := indexes[0], indexes[1..];
      assert i in indexes && i !in rest && forall x | x in rest :: x in indexes;
      assert NoDup(rest);
      ExhaustOneKeeps(q, i);
      NobodyFetches(q, i);
      hide Core, Containing, AllTried, CountOf;
      ExhaustHunts(ExhaustOne(q, i), rest);
      if i == 0 { ExhaustRest(ExhaustOne(q, i), rest); }
    }
  }

  lemma {:induction false} ExhaustRest(q: State, indexes: seq<nat>)
    requires q.total.None? && 0 !in indexes
    ensures Exhaust(q, indexes, EAGER) == q
    decreases |indexes|
  {
    if indexes != [] {
      assert indexes[0] in indexes && forall x | x in indexes[1..] :: x in indexes;
      ExhaustRest(q, indexes[1..]);
    }
  }

  lemma ZeroAlive(q: State)
    requires Inv(q) && q.running
    ensures 0 in q.missing ==> Alive(q, 0)
  {
    hide Core, Alive;
  }

  lemma ZeroMissing(q: State)
    requires Core(q) && q.start == 0 && q.covered == {}
    ensures forall i: nat :: i <= q.end <==> i in q.missing
  {
    hide Shape, Counted, Slots, AskedOnce, ReportedForGood, Provisional, NoDup;
  }

  /** The ended batch leaves the others as they were, and its relay with room. */
  lemma DropHunts(q: State, k: nat)
    requires Core(q) && q.running && Eager(q) && ZeroApart(q) && k < |q.outstanding|
    requires forall r | 0 <= r < |q.relays| :: Busy(q, r)
    ensures var d := Drop(q, k);
            && Eager(d) && ZeroApart(d) && |d.relays| == |q.relays|
            && forall r | 0 <= r < |d.relays| :: Busy(d, r) || MayRequest(d, r)
  {
    var d := Drop(q, k);
    DropKeeps(q, k);
    DropShape(q, k);
    hide Partition, Counted, AskedOnce, ReportedForGood, Provisional, Drop;
    forall r: nat | r < |d.relays| ensures Busy(d, r) || MayRequest(d, r) {
      CountsAround(q.outstanding, k, r);
      if r == q.outstanding[k].relay {
        MayAsk(d, r);
        assert ByRelay(q.outstanding, r) <= MAX_RELAY_BATCHES;
      } else {
        DropBusy(q, k, r);
      }
    }
  }

  lemma DropShape(q: State, k: nat)
    requires k < |q.outstanding| && q.outstanding[k].relay < |q.relays| && Eager(q) && ZeroApart(q)
    ensures var d := Drop(q, k);
            && d.outstanding == q.outstanding[..k] + q.outstanding[k + 1..] && Eager(d) && ZeroApart(d) && |d.relays| == |q.relays|
            && d.missing == q.missing && d.fallbacks == q.fallbacks
            && forall r, mode | 0 <= r < |q.relays| :: TriedBy(d.relays[r], mode) == TriedBy(q.relays[r], mode)
  {
    var d := Drop(q, k);
    forall j | 0 <= j < |d.outstanding| ensures d.outstanding[j] == q.outstanding[if j < k then j else j + 1] { }
    hide Lowered;
  }

  lemma DropBusy(q: State, k: nat, r: nat)
    requires k < |q.outstanding| && q.outstanding[k].relay < |q.relays| && r < |q.relays| && r != q.outstanding[k].relay && Busy(q, r)
    requires Eager(q) && ZeroApart(q)
    ensures Busy(Drop(q, k), r)
  {
    DropShape(q, k);
    hide Drop, Eager, ZeroApart;
    var d := Drop(q, k);
    if OwnOpen(d, r) {
      var i :| i in d.missing && Open(d, r, false, i);
      assert Open(q, r, false, i);
      var j :| 0 <= j < |q.outstanding| && q.outstanding[j].relay == r && !q.outstanding[j].fallback;
      assert d.outstanding[if j < k then j else j - 1] == q.outstanding[j];
    }
  }

  /** Promoting index 0, which nobody fetches, keeps what a hunt needs. */
  lemma PromoteHunts(q: State, q': State)
    requires Core(q) && (q' == q || (q' == q.(fallbacks := q.fallbacks + {0}) && Containing(q.outstanding, 0) == 0))
    requires Eager(q) && ZeroApart(q) && forall r | 0 <= r < |q.relays| :: Busy(q, r) || MayRequest(q, r)
    ensures Eager(q') && ZeroApart(q') && forall r | 0 <= r < |q'.relays| :: Busy(q', r) || MayRequest(q', r)
  {
    hide Core;
    if q' != q {
      forall k | 0 <= k < |q.outstanding| ensures 0 !in q.outstanding[k].indexes {
        if 0 in q.outstanding[k].indexes { Held(q.outstanding, k, 0); }
      }
      forall r | 0 <= r < |q'.relays| ensures Busy(q', r) || MayRequest(q', r) {
        assert Busy(q, r) || MayRequest(q, r);
        if OwnOpen(q', r) {
          var i :| i in q'.missing && Open(q', r, false, i);
          assert Open(q, r, false, i);
        }
        assert OwnBatch(q', r) == OwnBatch(q, r);
      }
      hide OwnOpen, Containing, OwnBatch;
    }
  }

  /** What the end of an own-author batch leaves before the next round of requests: the batch dropped, index 0 promoted perhaps. */
  ghost predicate Ended(q: State, t: State) {
    && Core(t) && Same(q, t) && t.running && t.reported == q.reported && t.fallbacks <= q.fallbacks + {0}
    && Alive(t, 0) && Eager(t) && ZeroApart(t) && forall r | 0 <= r < |t.relays| :: Busy(t, r) || MayRequest(t, r)
  }

  lemma EndHunts(q: State, k: nat)
    requires Hunting(q) && k < |q.outstanding| && !q.outstanding[k].fallback
    ensures q.outstanding[k].relay < |q.relays| && Ended(q, Exhaust(Drop(q, k), q.outstanding[k].indexes, EAGER))
  {
    ZeroAlive(q);
    InvCore(q);
    ZeroMissing(q);
    IndexesOnce(q, k);
    assert 0 in q.outstanding[k].indexes ==> 0 !in q.fallbacks;
    DropKeeps(q, k);
    DropHunts(q, k);
    hide Inv, Core, Drop, Exhaust, Alive, Busy, Eager, ZeroApart;
    var dropped, idx := Drop(q, k), q.outstanding[k].indexes;
    ExhaustKeeps(dropped, idx, EAGER);
    ExhaustHunts(dropped, idx);
    PromoteHunts(dropped, Exhaust(dropped, idx, EAGER));
  }

  /** A hunt goes on when an own-author batch ends. */
  lemma HuntGoesOn(q: State, k: nat)
    requires Hunting(q) && k < |q.outstanding| && !q.outstanding[k].fallback
    ensures var q' := EndBatch(q, k, EAGER); Hunting(q') && Work(q') < Work(q)
  {
    EndHunts(q, k);
    InvCore(q);
    ZeroMissing(q);
    EndKeeps(q, k, EAGER);
    hide Inv, Core, Drop, Exhaust, Schedule, MaybeFinish, Alive, Busy, Eager, ZeroApart, Work;
    var t := Exhaust(Drop(q, k), q.outstanding[k].indexes, EAGER);
    RoundGoesOn(t, EAGER);
    ScheduleKeeps(t, EAGER);
    ScheduleHunts(t);
    assert EndBatch(q, k, EAGER) == Schedule(t, EAGER);
  }

  lemma IndexesOnce(q: State, k: nat)
    requires Inv(q) && k < |q.outstanding|
    ensures NoDup(q.outstanding[k].indexes) && q.outstanding[k].relay < |q.relays|
  {
    hide Partition, Counted, Slots, AskedOnce, ReportedForGood, Provisional, NoDup;
  }

  lemma ScheduleHunts(q: State)
    requires Core(q) && q.running && Eager(q) && ZeroApart(q) && q.missing != []
    requires forall r | 0 <= r < |q.relays| :: Busy(q, r) || MayRequest(q, r)
    ensures var q' := Schedule(q, EAGER);
            Eager(q') && ZeroApart(q') && |q'.relays| == |q.relays| && forall r | 0 <= r < |q'.relays| :: Busy(q', r)
  {
    hide Core, Busy, Eager, ZeroApart, RequestFrom;
    RoundHunts(q, 0);
  }

  /** Starting a downloader that was told neither the total nor any cached index starts a hunt. */
  lemma HuntBegins(q: State)
    requires Fresh(q) && q.canFallBack && q.total.None? && q.start == 0 < q.end && q.cached == {}
    ensures Hunting(Begin(q, EAGER))
  {
    BeginKeeps(q, EAGER);
    FreshHunts(q);
    hide Inv, Core, Schedule, MaybeFinish, Alive, Busy, Eager, ZeroApart;
    RoundGoesOn(q, EAGER);
    ScheduleKeeps(q, EAGER);
    ScheduleHunts(q);
  }

  lemma FreshHunts(q: State)
    requires Fresh(q) && q.start == 0 && q.cached == {}
    ensures Core(q) && Alive(q, 0) && 0 in q.missing && Eager(q) && ZeroApart(q)
    ensures forall r | 0 <= r < |q.relays| :: MayRequest(q, r)
  {
    assert 0 !in TriedBy(q.relays[0], false);
    hide Busy, OwnOpen;
  }

  ghost function Last(states: seq<State>): State
    requires states != []
  {
    states[|states| - 1]
  }

  lemma RunOn(states: seq<State>, events: seq<Event>, e: Event)
    requires states != [] && IsRun(states, events) && Shape(Last(states)) && Enabled(Last(states), e)
    ensures IsRun(states + [Happen(Last(states), e)], events + [e])
  {
    hide Shape, Enabled, Happen;
  }

  lemma WorkLeft(q: State)
    requires Inv(q)
    ensures Work(q) >= 0 && Shape(q)
  {
    AsksBounded(q);
    hide Partition, Counted, Slots, AskedOnce, ReportedForGood, Provisional;
  }

  /** All own-author batches end in vain; what is left asks any author, for index 0. */
  lemma HuntOn(states: seq<State>, events: seq<Event>) returns (states': seq<State>, events': seq<Event>)
    requires states != [] && IsRun(states, events) && Hunting(Last(states))
    ensures states' != [] && IsRun(states', events') && states'[0] == states[0] && Hunting(Last(states'))
    ensures forall k | 0 <= k < |Last(states').outstanding| :: Last(states').outstanding[k].fallback
    decreases Work(Last(states))
  {
    var q := Last(states);
    if k :| 0 <= k < |q.outstanding| && !q.outstanding[k].fallback {
      WorkLeft(q);
      HuntGoesOn(q, k);
      hide Hunting, Work, EndBatch;
      RunOn(states, events, End(k, EAGER));
      var q' := EndBatch(q, k, EAGER);
      assert Last(states + [q']) == q';
      hide IsRun;
      states', events' := HuntOn(states + [q'], events + [End(k, EAGER)]);
    } else {
      states', events' := states, events;
    }
  }

  // ---- forgetting: nobody asks for an index any more ----

  /** Every relay was asked for its own authors in vain, nobody fetches the index, and it was not promoted. */
  ghost predicate Dormant(q: State, i: nat) {
    i !in q.fallbacks && AllTried(q, i) && Containing(q.outstanding, i) == 0
  }

  lemma {:induction false} RoundSkips(q: State, from: nat, w: World, i: nat)
    requires Core(q) && Dormant(q, i)
    ensures Dormant(RequestFrom(q, from, w), i)
    decreases |q.relays| - from
  {
    if from < |q.relays| {
      RequestKeeps(q, from, w.starts(from));
      RequestSkips(q, from, w.starts(from), i);
      hide Core, Request, Dormant;
      RoundSkips(Request(q, from, w.starts(from)), from + 1, w, i);
    }
  }

  lemma RequestSkips(q: State, r: nat, started: bool, i: nat)
    requires Core(q) && r < |q.relays| && Dormant(q, i)
    ensures Dormant(Request(q, r, started), i)
  {
    SelectionOpen(q, r);
    var (fallback, idx) := SelectBatch(q, r);
    hide Core, SelectBatch;
    if MayRequest(q, r) && idx != [] {
      assert i !in idx;
      var q' := Launch(q, r, fallback, idx, started);
      CountsConcat(q.outstanding, [Batch(r, fallback, idx, started)], i);
      CountsOfOne(Batch(r, fallback, idx, started), i);
      forall x: nat | x < |q.relays| ensures i in TriedBy(q'.relays[x], i in q'.fallbacks) {
        LaunchTried(q, r, fallback, idx, started, x, false, i);
      }
    }
  }

  /** When only fallback batches are left, index 1 is dormant, and index 0 is being fetched. */
  lemma OneIsDormant(q: State)
    requires Hunting(q) && forall k | 0 <= k < |q.outstanding| :: q.outstanding[k].fallback
    ensures Dormant(q, 1) && q.outstanding != [] && 0 in q.outstanding[0].indexes
  {
    ZeroMissing(q);
    FallbackIsZero(q);
    OneUnheld(q.outstanding);
    forall r: nat | r < |q.relays| ensures 1 in TriedBy(q.relays[r], 1 in q.fallbacks) {
      assert Busy(q, r) && !OwnOpen(q, r);
      assert !Open(q, r, false, 1);
    }
    hide Core, Eager, Busy;
    assert q.outstanding[0].indexes[0] in q.outstanding[0].indexes;
  }

  lemma FallbackIsZero(q: State)
    requires Hunting(q)
    ensures forall k, i | 0 <= k < |q.outstanding| && q.outstanding[k].fallback && i in q.outstanding[k].indexes :: i == 0
    ensures q.outstanding != [] && q.outstanding[0].indexes != []
  {
    hide Partition, Counted, Slots, ReportedForGood, Provisional, NoDup;
  }

  lemma {:induction false} OneUnheld(outs: seq<Batch>)
    requires forall k, i | 0 <= k < |outs| && i in outs[k].indexes :: i == 0
    ensures Containing(outs, 1) == 0
  {
    if outs != [] { OneUnheld(outs[1..]); }
  }

  /** Two chunks, of which chunk 0 came; the other is dormant, and the run, once over, has nothing to say about it. */
  ghost predicate Doomed(q: State) {
    && Inv(q) && q.canFallBack && q.total == Some(2) && q.start == 0 && q.end == 1 && q.covered == {0} && q.delivered == [0]
    && q.reported == {} && (forall r :: Ask(r, true, 1) !in q.asked)
    && if q.running then Dormant(q, 1) && !q.finished else q.finished
  }

  lemma ToldIsDoomed(q: State)
    requires Hunting(q) && Dormant(q, 1) && q.outstanding != [] && 0 in q.outstanding[0].indexes
    ensures Doomed(Receive(q, 0, 0, 2, EAGER))
  {
    ReceiveKeeps(q, 0, 0, 2, EAGER);
    InvCore(q);
    BoundedKeeps(q, 2);
    BoundedTwo(q);
    hide Inv, Core, Bounded, Schedule, Cover, Dormant, Eager, Busy, ZeroApart, Work;
    TwoDoomed(q, Bounded(q, 2));
  }

  lemma TwoDoomed(q: State, d: State)
    requires Core(d) && d.end == 1 && d.covered == {} && 0 in d.missing && Dormant(d, 1) && d.total == Some(2)
    requires d.running && d.canFallBack && d.start == 0 && d.delivered == [] && d.reported == {} && !d.finished
    ensures var p := Cover(Schedule(d, EAGER), 0);
            && p.canFallBack && p.total == Some(2) && p.start == 0 && p.end == 1 && p.covered == {0} && p.delivered == [0]
            && p.reported == {} && (forall r :: Ask(r, true, 1) !in p.asked) && p.running && Dormant(p, 1) && !p.finished
  {
    hide Core, RequestFrom, Dormant, Cover;
    ScheduleKeeps(d, EAGER);
    RoundSkips(d, 0, EAGER, 1);
    var told := Schedule(d, EAGER);
    assert Dormant(told, 1);
    CoverTwo(told);
    NeverAsked(told);
    hide Schedule;
  }

  lemma InvCore(q: State)
    requires Inv(q)
    ensures Core(q)
  {
    hide Core;
  }

  lemma TriedStays(q: State, total: nat, i: nat)
    requires q.start < total && AllTried(q, i)
    ensures AllTried(Bounded(q, total), i)
  {
    hide Rebuilt;
  }

  lemma BoundedTwo(q: State)
    requires Core(q) && q.start == 0 < q.end && q.covered == {} && q.total.None? && Dormant(q, 1)
    ensures var d := Bounded(q, 2);
            && d.end == 1 && d.covered == {} && 0 in d.missing && 1 in d.missing && Dormant(d, 1) && d.total == Some(2)
            && d.running == q.running && d.canFallBack == q.canFallBack && d.start == 0 && d.fallbacks == q.fallbacks
            && d.delivered == [] && d.reported == q.reported && d.finished == q.finished && d.outstanding == q.outstanding
  {
    hide Counted, Slots, AskedOnce, ReportedForGood, NoDup, Containing, Rebuilt;
    RebuiltIs(0, 1, {});
    assert (set i | i in q.covered && i <= 1) == {};
    TriedStays(q, 2, 1);
  }

  lemma CoverTwo(q: State)
    requires q.running && 0 in q.missing && Dormant(q, 1)
    ensures var q' := Cover(q, 0);
            && q' == q.(missing := q'.missing, covered := q.covered + {0}, counters := q.counters - {0}, delivered := q.delivered + [0])
            && Dormant(q', 1)
  {
    hide Containing, Filtered;
  }

  lemma NeverAsked(q: State)
    requires Core(q) && Dormant(q, 1)
    ensures forall r :: Ask(r, true, 1) !in q.asked
  {
    hide Shape, Partition, Counted, Slots, ReportedForGood, Provisional, NoDup, AllTried, Containing;
  }

  lemma SomeIndex(idx: seq<nat>)
    ensures idx != [] ==> exists i: nat :: i in idx
  {
    if idx != [] { assert idx[0] in idx; }
  }

  lemma {:induction false} NobodyAsks(q: State, from: nat, w: World)
    requires Shape(q) && forall r, fallback, i | 0 <= r < |q.relays| && i in q.missing :: !Open(q, r, fallback, i)
    ensures RequestFrom(q, from, w) == q
    decreases |q.relays| - from
  {
    hide Open;
    if from < |q.relays| {
      SelectionOpen(q, from);
      var (fallback, idx) := SelectBatch(q, from);
      hide Shape, SelectBatch, Launch;
      SomeIndex(idx);
      assert idx == [];
      assert Request(q, from, w.starts(from)) == q;
      NobodyAsks(q, from + 1, w);
    }
  }

  lemma {:induction false} ExhaustNothing(q: State, indexes: seq<nat>, w: World)
    requires forall i | i in indexes :: i !in q.missing
    ensures Exhaust(q, indexes, w) == q
    decreases |indexes|
  {
    if indexes != [] {
      assert indexes[0] in indexes && forall i | i in indexes[1..] :: i in indexes;
      ExhaustNothing(q, indexes[1..], w);
    }
  }

  /** Nothing but index 1 is missing, and nobody may be asked for it. */
  lemma DoomedNothing(q: State)
    requires Core(q) && Dormant(q, 1) && q.start == 0 && q.end == 1 && q.covered == {0}
    ensures forall i: nat :: i in q.missing <==> i == 1
    ensures forall r, fallback, i | 0 <= r < |q.relays| && i in q.missing :: !Open(q, r, fallback, i)
    ensures q.missing == [1] && NoDup([1]) && CountOf(q.counters, 1) == 0
  {
    hide Slots, AskedOnce, ReportedForGood, Provisional, Containing;
    assert 1 in q.missing;
    assert forall r | 0 <= r < |q.relays| :: 1 in TriedBy(q.relays[r], 1 in q.fallbacks);
    OnlyOne(q.missing);
  }

  lemma OnlyOne(idx: seq<nat>)
    requires NoDup(idx) && idx != [] && forall x | x in idx :: x == 1
    ensures idx == [1]
  {
    forall k | 0 <= k < |idx| ensures idx[k] == 1 { assert idx[k] in idx; }
    TwoAlike(idx);
  }

  lemma TwoAlike(idx: seq<nat>)
    ensures |idx| > 1 && (forall k | 0 <= k < |idx| :: idx[k] == 1) ==> !NoDup(idx)
  {
    if |idx| > 1 && forall k | 0 <= k < |idx| :: idx[k] == 1 { assert idx[0] == idx[1]; }
  }

  /** The last check promotes index 1 and ends the run. */
  lemma OneIsPromoted(q: State)
    requires Core(q) && Dormant(q, 1) && q.missing == [1] && CountOf(q.counters, 1) == 0 && q.running && q.canFallBack
    requires q.total.Some? && q.reported == {} && q.outstanding == [] && Schedule(q, EAGER) == q
    ensures MaybeFinish(q, EAGER) == q.(fallbacks := q.fallbacks + {1}, running := false, finished := true)
  {
    hide Core, Schedule, AllTried;
    var p := q.(fallbacks := q.fallbacks + {1});
    assert ExhaustOne(q, 1) == p;
    assert [1][1..] == [];
    assert Exhaust(q, [1], EAGER) == Exhaust(p, [], EAGER) == p;
    hide Exhaust;
  }

  lemma DropDormant(q: State, k: nat, i: nat)
    requires Core(q) && Dormant(q, i) && k < |q.outstanding|
    ensures Dormant(Drop(q, k), i) && i !in q.outstanding[k].indexes
  {
    CountsAround(q.outstanding, k, i);
    DropTried(q, k, i);
    hide Core, AllTried, Containing, Lowered;
  }

  lemma DropTried(q: State, k: nat, i: nat)
    requires Shape(q) && AllTried(q, i) && k < |q.outstanding|
    ensures AllTried(Drop(q, k), i)
  {
    hide NoDup, Lowered;
    var d := Drop(q, k);
    forall r: nat | r < |d.relays| ensures i in TriedBy(d.relays[r], i in d.fallbacks) {
      assert i in TriedBy(q.relays[r], i in q.fallbacks);
    }
  }

  lemma DoomGoesOn(q: State)
    requires Doomed(q) && q.running
    ensures q.outstanding != [] && var q' := EndBatch(q, 0, EAGER); Doomed(q') && Work(q') < Work(q)
  {
    InvCore(q);
    DropDormant(q, 0, 1);
    IndexesOnce(q, 0);
    EndKeeps(q, 0, EAGER);
    DropKeeps(q, 0);
    DoomedNothing(q);
    hide Inv, Core, Drop, RequestFrom, Exhaust, MaybeFinish, Dormant, Alive, CountOf, Open;
    var d := Drop(q, 0);
    DoomedNothing(d);
    CoreShape(d);
    ExhaustNothing(d, q.outstanding[0].indexes, EAGER);
    NobodyAsks(d, 0, EAGER);
    assert Schedule(d, EAGER) == d;
    if d.outstanding == [] { OneIsPromoted(d); } else { assert MaybeFinish(d, EAGER) == d by { NotYet(d); } }
  }

  lemma CoreShape(q: State)
    requires Core(q)
    ensures Shape(q)
  {
    hide Partition, Counted, Slots, AskedOnce, ReportedForGood, Provisional;
  }

  lemma NotYet(q: State)
    ensures q.outstanding != [] ==> MaybeFinish(q, EAGER) == q
  {
    hide Schedule, Exhaust;
  }

  lemma DoomOn(states: seq<State>, events: seq<Event>) returns (states': seq<State>, events': seq<Event>)
    requires states != [] && IsRun(states, events) && Doomed(Last(states))
    ensures states' != [] && IsRun(states', events') && states'[0] == states[0] && Doomed(Last(states')) && Last(states').finished
    decreases Work(Last(states))
  {
    var q := Last(states);
    if q.running {
      WorkLeft(q);
      DoomGoesOn(q);
      hide Doomed, Work, EndBatch;
      RunOn(states, events, End(0, EAGER));
      var q' := EndBatch(q, 0, EAGER);
      assert Last(states + [q']) == q';
      hide IsRun;
      states', events' := DoomOn(states + [q'], events + [End(0, EAGER)]);
    } else {
      states', events' := states, events;
    }
  }

  /**
   * Every downloader that may fall back to any author, was not told the total and may ask for more than index 0, has a
   * run that ends well with chunk 1 of two neither delivered nor reported, and never asked for from any author.
   */
  lemma ForgottenIndex(q: State) returns (states: seq<State>, events: seq<Event>)
    requires Fresh(q) && q.canFallBack && q.total.None? && q.start == 0 < q.end && q.cached == {}
    ensures states != [] && IsRun(states, events) && states[0] == Begin(q, EAGER)
    ensures var p := Last(states);
            && p.finished && p.total == Some(2) && p.end == 1 && p.delivered == [0] && p.lost == []
            && 1 in p.missing && 1 !in p.reported && forall r :: Ask(r, true, 1) !in p.asked
  {
    hide Hunting, Doomed, Receive, Begin, Fresh, IsRun, Shape, EndBatch;
    HuntBegins(q);
    RunStarts(Begin(q, EAGER));
    states, events := HuntOn([Begin(q, EAGER)], []);
    HuntTells(Last(states));
    var told := Receive(Last(states), 0, 0, 2, EAGER);
    RunOn(states, events, Chunk(0, 0, 2, EAGER));
    assert Last(states + [told]) == told;
    states, events := DoomOn(states + [told], events + [Chunk(0, 0, 2, EAGER)]);
    DoomedLeaves(Last(states));
  }

  lemma RunStarts(q: State)
    ensures IsRun([q], []) && Last([q]) == q
  {
  }

  lemma HuntTells(q: State)
    requires Hunting(q) && forall k | 0 <= k < |q.outstanding| :: q.outstanding[k].fallback
    ensures Shape(q) && Enabled(q, Chunk(0, 0, 2, EAGER)) && Doomed(Receive(q, 0, 0, 2, EAGER))
  {
    OneIsDormant(q);
    ToldIsDoomed(q);
    WorkLeft(q);
    hide Inv, Doomed, Receive, ZeroApart, Busy;
  }

  lemma DoomedLeaves(q: State)
    requires Doomed(q)
    ensures 1 in q.missing && 1 !in q.reported && q.lost == []
    ensures q.total == Some(2) && q.end == 1 && q.delivered == [0] && forall r :: Ask(r, true, 1) !in q.asked
  {
    hide Shape, Counted, Slots, AskedOnce, Provisional, NoDup, AllTried, Containing, Dormant;
    SomeIndex(q.lost);
  }

  // ---- exactly which downloaders ----

  /** A finished run that learned its total and left an index neither delivered nor reported. */
  ghost predicate Forgets(q: State, w: World, states: seq<State>, events: seq<Event>, i: nat) {
    && IsRun(states, events) && states[0] == Begin(q, w) && Last(states).finished && Last(states).total.Some?
    && i in Last(states).missing && i !in Last(states).reported
  }

  /** What a caller can check: an index can be forgotten exactly if the downloader may fall back and was told no total for more than index 0. */
  lemma ForgetsExactly(q: State)
    requires Fresh(q) && (q.total.None? ==> q.start == 0 && q.cached == {})
    ensures (exists w, states, events, i :: Forgets(q, w, states, events, i)) <==> q.total.None? && q.canFallBack && q.end > 0
  {
    if q.total.None? && q.canFallBack && q.end > 0 {
      var states, events := ForgottenIndex(q);
      assert Forgets(q, EAGER, states, events, 1);
    }
    forall w, states, events, i | Forgets(q, w, states, events, i) ensures q.total.None? && q.canFallBack && q.end > 0 {
      ForgottenOnly(q, w, states, events, i);
    }
  }

  lemma ForgottenOnly(q: State, w: World, states: seq<State>, events: seq<Event>, i: nat)
    requires Fresh(q) && Forgets(q, w, states, events, i)
    ensures q.total.None? && q.canFallBack && 0 < i <= q.end
  {
    BeginKeeps(q, w);
    RunKeeps(states, events, |events|);
    RunFixed(states, events, |events|);
    BeginFixed(q, w);
    hide Core, IsRun, Begin;
  }
}
