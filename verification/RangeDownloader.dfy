/**
 * The range downloader as the object that the source mutates. `Value()` is its state as a value; every method
 * is proved to do exactly what the step functions say, so the invariant and the theorems about runs hold for it.
 */
module RangeDownloader {
  import opened Basics
  import opened BatchSelection
  import opened RangeDownload
  import opened RangeSafety

  /** Entries of a batch that are marked as untried come from the untried list. */
  lemma MarkedUntried(batchSize: nat, untried: seq<nat>, inFlight: seq<nat>, step: nat, offset: nat, k: nat)
    requires step > 0
    ensures var r := BatchOf(batchSize, untried, inFlight, step, offset);
            k < |r| && r[k].wasUntried && r[k].index.Some? ==> r[k].index.value in untried
  {
    hide Positions, Take;
  }

  lemma {:induction false} IndexesConcat(a: seq<Selected>, b: seq<Selected>)
    ensures Indexes(a + b) == Indexes(a) + Indexes(b)
  {
    if a == [] {
      assert a + b == b;
    } else {
      var own := if a[0].index.Some? then [a[0].index.value] else [];
      assert (a + b)[1..] == a[1..] + b && (a + b)[0] == a[0];
      assert Indexes(a + b) == own + Indexes(a[1..] + b) && Indexes(a) == own + Indexes(a[1..]);
      hide Indexes;
      IndexesConcat(a[1..], b);
      Associates(own, Indexes(a[1..]), Indexes(b));
    }
  }

  lemma IndexesOne(s: Selected)
    ensures Indexes([s]) == if s.index.Some? then [s.index.value] else []
  {
    assert [s][1..] == [];
  }

  /** One more selected entry: the index is new to the ones before it. */
  lemma NextSelected(selected: seq<Selected>, k: nat)
    requires k < |selected| && NoDup(Indexes(selected))
    ensures var (before, after) := (Indexes(selected[..k]), Indexes(selected[..k + 1]));
            match selected[k].index
            case None => after == before
            case Some(i) => after == before + [i] && i !in before
  {
    hide Indexes;
    assert selected == selected[..k + 1] + selected[k + 1..];
    assert selected[..k + 1] == selected[..k] + [selected[k]];
    IndexesConcat(selected[..k + 1], selected[k + 1..]);
    IndexesConcat(selected[..k], [selected[k]]);
    IndexesOne(selected[k]);
    if selected[k].index.Some? {
      LastIsNew(Indexes(selected[..k]), selected[k].index.value, Indexes(selected[k + 1..]));
    }
  }

  lemma LastIsNew(before: seq<nat>, i: nat, after: seq<nat>)
    requires NoDup(before + [i] + after)
    ensures i !in before
  {
    var all := before + [i] + after;
    forall a | 0 <= a < |before| ensures before[a] != i { assert all[a] == before[a] && all[|before|] == i; }
  }

  lemma BumpedSnoc(counters: map<nat, nat>, indexes: seq<nat>, i: nat)
    requires i !in indexes
    ensures Bumped(counters, indexes + [i]) == Bumped(counters, indexes)[i := CountOf(counters, i) + 1]
    ensures CountOf(Bumped(counters, indexes), i) == CountOf(counters, i)
  {
  }

  lemma AddTriedSnoc(relay: Relay, fallback: bool, indexes: seq<nat>, i: nat)
    ensures AddTried(relay, fallback, indexes + [i]) == AddTried(AddTried(relay, fallback, indexes), fallback, [i])
  {
    assert (set x | x in indexes + [i]) == (set x | x in indexes) + (set x | x in [i]);
  }

  lemma LoweredSnoc(counters: map<nat, nat>, missing: seq<nat>, indexes: seq<nat>, i: nat)
    requires i !in indexes
    ensures var was := Lowered(counters, missing, indexes);
            && CountOf(was, i) == CountOf(counters, i)
            && Lowered(counters, missing, indexes + [i])
               == if i !in missing then was
                  else if CountOf(counters, i) > 1 then was[i := CountOf(counters, i) - 1]
                  else was - {i}
  {
  }

  lemma MarkNothing(relay: Relay, counters: map<nat, nat>, fallback: bool, selected: seq<Selected>)
    ensures Indexes(selected[..0]) == [] && Bumped(counters, []) == counters && AddTried(relay, fallback, []) == relay
  {
    assert (set i: nat | i in []) == {};
  }

  /** Marks each selected index as tried by this relay and counts it as in flight. */
  method MarkSelected(relay: Relay, counters: map<nat, nat>, fallback: bool, selected: seq<Selected>)
    returns (tried: Relay, counted: map<nat, nat>)
    requires NoDup(Indexes(selected))
    requires forall k | 0 <= k < |selected| && selected[k].wasUntried && selected[k].index.Some? :: selected[k].index.value !in counters
    ensures tried == AddTried(relay, fallback, Indexes(selected)) && counted == Bumped(counters, Indexes(selected))
  {
    MarkNothing(relay, counters, fallback, selected);
    hide Bumped, AddTried, Indexes;
    tried, counted := relay, counters;
    var k := 0;
    while k < |selected|
      invariant 0 <= k <= |selected|
      invariant counted == Bumped(counters, Indexes(selected[..k]))
      invariant tried == AddTried(relay, fallback, Indexes(selected[..k]))
    {
      NextSelected(selected, k);
      if selected[k].index.Some? {
        var i := selected[k].index.value;
        BumpedSnoc(counters, Indexes(selected[..k]), i);
        AddTriedSnoc(relay, fallback, Indexes(selected[..k]), i);
        tried := AddTried(tried, fallback, [i]);
        counted := counted[i := if selected[k].wasUntried then 1 else CountOf(counted, i) + 1];
      }
      k := k + 1;
    }
    assert selected[..k] == selected;
  }

  /** Takes one fetcher off each index of an ended batch that is still missing. */
  method LowerCounters(counters: map<nat, nat>, missing: seq<nat>, indexes: seq<nat>) returns (lowered: map<nat, nat>)
    requires NoDup(indexes)
    ensures lowered == Lowered(counters, missing, indexes)
  {
    lowered := counters;
    assert Lowered(counters, missing, indexes[..0]) == counters;
    var j := 0;
    while j < |indexes|
      invariant 0 <= j <= |indexes|
      invariant lowered == Lowered(counters, missing, indexes[..j])
    {
      hide Lowered;
      var i := indexes[j];
      assert i !in indexes[..j] && indexes[..j + 1] == indexes[..j] + [i];
      LoweredSnoc(counters, missing, indexes[..j], i);
      if i in missing {
        var count := CountOf(lowered, i);
        if count > 1 { lowered := lowered[i := count - 1]; } else { lowered := lowered - {i}; }
      }
      j := j + 1;
    }
    assert indexes[..j] == indexes;
  }

  class Downloader {
    const start: nat
    const maxEnd: nat
    const scope: nat
    const informed: bool
    const batchSize: nat
    const canFallBack: bool
    const cached: set<nat>
    var end: nat
    var total: Option<nat>
    var relays: seq<Relay>
    var missing: seq<nat>
    var covered: set<nat>
    var counters: map<nat, nat>
    var fallbacks: set<nat>
    var reported: set<nat>
    var outstanding: seq<Batch>
    var running: bool
    var finished: bool
    // What went out and came back: requests, delivered chunks, reported indexes.
    var asked: seq<Ask>
    var delivered: seq<nat>
    var lost: seq<nat>

    function Value(): State
      reads this
    {
      State(start, end, maxEnd, scope, total, informed, batchSize, canFallBack, cached, relays, missing, covered, counters, fallbacks,
            reported, outstanding, running, finished, asked, delivered, lost)
    }

    /** A new downloader: everything in the range that is not cached is missing. */
    constructor (first: nat, last: nat, furthest: nat, chunks: Option<nat>, batch: nat, fallback: bool, known: set<nat>, relayCount: nat)
      requires first <= last <= furthest && batch > 0 && relayCount > 0 && forall i | i in known :: first <= i <= last
      ensures Fresh(Value().(running := true)) && !running
      ensures start == first && end == last && maxEnd == furthest && total == chunks && cached == known && canFallBack == fallback
      ensures |relays| == relayCount
    {
      start, end, maxEnd, batchSize, canFallBack, cached := first, last, furthest, batch, fallback, known;
      total, informed, scope := chunks, chunks.Some?, last;
      relays := seq(relayCount, _ => Relay({}, {}, false, 0));
      covered, counters, fallbacks, reported, outstanding := known, map[], {}, {}, [];
      running, finished := false, false;
      asked, delivered, lost := [], [], [];
      missing := [];
      new;
      RebuildMissing();
      RebuiltIs(first, last, known);
    }

    /** Fills the missing indexes again, in ascending order. */
    method RebuildMissing()
      requires start <= end + 1
      modifies this`missing
      ensures missing == Rebuilt(start, end, covered)
    {
      missing := [];
      var i: nat := start;
      while i <= end
        invariant start <= i <= end + 1
        invariant missing == Rebuilt(start, i - 1, covered)
        decreases end + 1 - i
      {
        if i !in covered { missing := missing + [i]; }
        i := i + 1;
      }
    }

    /** The batch this relay would fetch next in one author mode, entry by entry. */
    method Select(r: nat, fallback: bool) returns (selected: seq<Selected>)
      requires Shape(Value()) && r < |relays|
      ensures selected == SelectMode(Value(), r, fallback)
      ensures NoDup(Indexes(selected))
      ensures forall k | 0 <= k < |selected| && selected[k].wasUntried && selected[k].index.Some? :: selected[k].index.value !in counters
    {
      var untried, inFlight := Untried(Value(), r, fallback), InFlight(Value(), r, fallback);
      selected := GetBatchIndexes(batchSize, untried, inFlight, |relays|, r);
      ModeOpen(Value(), r, fallback);
      ghost var q := Value();
      FilteredKeeps(missing, (i: nat) => Open(q, r, fallback, i) && i !in q.counters);
      forall k | 0 <= k < |selected| && selected[k].wasUntried && selected[k].index.Some?
        ensures selected[k].index.value !in counters
      {
        MarkedUntried(batchSize, untried, inFlight, |relays|, r, k);
      }
    }

    /** Marks the selected indexes as tried and counts them as in flight, then hands the batch to the limiter. */
    method Send(r: nat, fallback: bool, selected: seq<Selected>, started: bool)
      requires r < |relays| && NoDup(Indexes(selected))
      requires forall k | 0 <= k < |selected| && selected[k].wasUntried && selected[k].index.Some? :: selected[k].index.value !in counters
      modifies this
      ensures Value() == Launch(old(Value()), r, fallback, Indexes(selected), started)
    {
      var tried, counted := MarkSelected(relays[r], counters, fallback, selected);
      var indexes := Indexes(selected);
      counters := counted;
      relays := relays[r := tried.(pending := !started, scheduled := relays[r].scheduled + 1)];
      outstanding := outstanding + [Batch(r, fallback, indexes, started)];
      asked := asked + Asks(r, fallback, indexes);
    }

    /** Whether a batch of this relay is in the limiter's queue or its three slots are taken; else the next batch. */
    method RequestFromRelay(r: nat, started: bool)
      requires Shape(Value()) && r < |relays|
      modifies this
      ensures Value() == Request(old(Value()), r, started)
    {
      if !running || relays[r].pending || relays[r].scheduled >= MAX_RELAY_BATCHES { return; }
      var selected := Select(r, false);
      if Indexes(selected) != [] {
        Send(r, false, selected, started);
        return;
      }
      selected := Select(r, true);
      if Indexes(selected) == [] { return; }
      Send(r, true, selected, started);
    }

    method ScheduleRelays(w: World)
      requires Core(Value())
      modifies this
      ensures Value() == Schedule(old(Value()), w)
    {
      if !running || missing == [] { return; }
      ghost var q := Value();
      var r := 0;
      while r < |relays|
        invariant Core(Value()) && r <= |relays|
        invariant RequestFrom(Value(), r, w) == RequestFrom(q, 0, w)
      {
        RequestKeeps(Value(), r, w.starts(r));
        hide Core, Request;
        RequestFromRelay(r, w.starts(r));
        r := r + 1;
      }
    }

    /** Promotes or reports an index that nobody fetches and nobody is left to ask for, or skips it. */
    method CheckExhausted(index: nat)
      modifies this
      ensures Value() == ExhaustOne(old(Value()), index)
    {
      if total.None? && index > 0 { return; }
      if index !in missing || index in reported || CountOf(counters, index) > 0 || !AllTried(Value(), index) { return; }
      if index !in fallbacks && canFallBack {
        fallbacks := fallbacks + {index};
      } else {
        reported := reported + {index};
        lost := lost + [index];
      }
    }

    /** Each listed index in turn, until reporting one stops the run. */
    method CheckExhaustedIndexes(indexes: seq<nat>, w: World)
      modifies this
      ensures Value() == Exhaust(old(Value()), indexes, w)
    {
      hide ExhaustOne;
      ghost var q := Value();
      var k := 0;
      while k < |indexes|
        invariant 0 <= k <= |indexes|
        invariant Exhaust(Value(), indexes[k..], w) == Exhaust(q, indexes, w)
      {
        if !running { return; }
        assert indexes[k..][0] == indexes[k] && indexes[k..][1..] == indexes[k + 1..];
        var reportedBefore := |lost|;
        CheckExhausted(indexes[k]);
        if |lost| > reportedBefore && w.aborts(indexes[k]) { running := false; }
        k := k + 1;
      }
    }

    method Finish(w: World)
      requires Core(Value())
      modifies this
      ensures Value() == MaybeFinish(old(Value()), w)
    {
      hide Core, Schedule, Exhaust;
      if !running || outstanding != [] { return; }
      if missing != [] {
        ScheduleRelays(w);
        if outstanding != [] { return; }
        CheckExhaustedIndexes(missing, w);
      }
      if !running { return; }
      running, finished := false, true;
    }

    /** `run()`. */
    method Run(w: World)
      requires !running && Fresh(Value().(running := true))
      modifies this
      ensures Value() == Begin(old(Value()).(running := true), w)
    {
      running := true;
      assert Core(Value());
      ScheduleKeeps(Value(), w);
      hide Core, Schedule, MaybeFinish;
      ScheduleRelays(w);
      Finish(w);
    }

    /** The discovered total bounds the range, whose missing indexes are scheduled at once. */
    method SetTotalChunks(chunks: nat, w: World)
      requires Core(Value()) && total.None? && start < chunks
      modifies this
      ensures Value() == Discover(old(Value()), chunks, w)
    {
      BoundedKeeps(Value(), chunks);
      hide Core, Rebuilt;
      total := Some(chunks);
      end := Min(maxEnd, chunks - 1);
      covered := set i | i in covered && i <= end;
      RebuildMissing();
      ScheduleRelays(w);
    }

    /** An authenticated chunk of a started batch. */
    method OnChunk(k: nat, index: nat, chunks: nat, w: World)
      requires Core(Value()) && k < |outstanding|
      modifies this
      ensures Value() == Receive(old(Value()), k, index, chunks, w)
    {
      hide Core, Discover;
      if !running || index !in outstanding[k].indexes { return; }
      if total.None? {
        if chunks <= start { return; }
        SetTotalChunks(chunks, w);
      } else if chunks != total.value {
        return;
      }
      if !running || index !in missing { return; }
      missing := Filtered(missing, (x: nat) => x != index);
      covered := covered + {index};
      counters := counters - {index};
      delivered := delivered + [index];
    }

    method Release(k: nat)
      requires Shape(Value()) && k < |outstanding|
      modifies this
      ensures Value() == Drop(old(Value()), k)
    {
      var b := outstanding[k];
      var relay := relays[b.relay];
      if !b.started { relay := relay.(pending := false); }
      relays := relays[b.relay := relay.(scheduled := if relay.scheduled > 0 then relay.scheduled - 1 else 0)];
      outstanding := outstanding[..k] + outstanding[k + 1..];
      counters := LowerCounters(counters, missing, b.indexes);
    }

    /** A batch ended: its slot and counters are given back, and what is left is scheduled, reported or finished. */
    method OnBatchEnd(k: nat, w: World)
      requires Core(Value()) && k < |outstanding|
      modifies this
      ensures Value() == EndBatch(old(Value()), k, w)
    {
      DropKeeps(Value(), k);
      ExhaustKeeps(Drop(Value(), k), outstanding[k].indexes, w);
      ScheduleKeeps(Exhaust(Drop(Value(), k), outstanding[k].indexes, w), w);
      hide Drop, Exhaust, Schedule, MaybeFinish, Alive;
      var indexes := outstanding[k].indexes;
      Release(k);
      if !running { return; }
      CheckExhaustedIndexes(indexes, w);
      ScheduleRelays(w);
      Finish(w);
    }
  }
}
