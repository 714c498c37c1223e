/** The orchestrator of range downloads as the object that the source mutates; its methods are the steps of the window machine. */
module FileDownloader {
  import opened Basics
  import opened Windows

  /** The loader's answer is usable: every index lies in the range and none is repeated. */
  ghost predicate Usable(values: seq<int>, start: int, end: int) {
    NoDup(values) && forall i | i in values :: start <= i <= end
  }

  /** Checks the loader's answer one index at a time. */
  method CheckCachedIndexes(values: seq<int>, start: int, end: int) returns (ok: bool)
    requires start <= end + 1
    ensures ok <==> Usable(values, start, end)
    ensures ok ==> |values| <= end - start + 1
  {
    var seen: set<int> := {};
    var k := 0;
    while k < |values|
      invariant 0 <= k <= |values| && Usable(values[..k], start, end)
      invariant (forall i :: i in seen <==> i in values[..k]) && |seen| == k
    {
      var index := values[k];
      if index < start || index > end || index in seen {
        assert values[k] in values;
        if index in seen {
          var j :| 0 <= j < k && values[..k][j] == index;
          assert values[j] == values[k];
        }
        return false;
      }
      assert values[..k + 1] == values[..k] + [index];
      seen := seen + {index};
      k := k + 1;
    }
    assert values[..k] == values;
    FitsRange(seen, start, end);
    ok := true;
  }

  lemma {:induction false} FitsRange(s: set<int>, start: int, end: int)
    requires start <= end + 1 && forall i | i in s :: start <= i <= end
    ensures |s| <= end - start + 1
    decreases end - start + 1
  {
    if start <= end {
      FitsRange(s - {end}, start, end - 1);
      assert s <= (s - {end}) + {end};
    } else {
      assert s == {} by { forall i | i in s ensures false { } }
    }
  }

  class Downloader {
    const config: Config
    const informed: bool
    var total: Option<nat>
    var count: nat
    var loaded: nat
    var missing: nat
    var next: nat
    var active: seq<Slot>
    var first: bool
    var outcome: Outcome
    // Every range started, and every slot whose worker finished.
    var started: seq<(nat, nat)>
    var closed: seq<Slot>

    function Value(): State
      reads this
    {
      State(total, informed, count, loaded, missing, next, active, first, outcome, started, closed)
    }

    constructor (c: Config, known: Option<nat>)
      requires Accepts(c, known)
      ensures config == c && Value() == Fresh(c, known)
    {
      config, informed := c, known.Some?;
      total, count, loaded, missing, next := known, c.initial, 0, 0, c.start;
      active, first, outcome, started, closed := [], false, Pending, [], [];
    }

    method End(o: Outcome)
      modifies this
      ensures Value() == Finish(old(Value()), o)
    {
      if !outcome.Pending? { return; }
      active, outcome := [], o;
    }

    method StartNextRange()
      requires 0 < config.discoveryLength <= config.windowSize
      modifies this
      ensures Value() == StartNext(config, old(Value()))
    {
      if !outcome.Pending? || |active| >= 2 { return; }
      var start, end, maxEnd;
      if total.None? {
        if first { return; }
        start, maxEnd, end := 0, config.windowSize - 1, config.discoveryLength - 1;
        next := config.windowSize;
      } else {
        var downloadEnd := Last(config, total.value);
        if next > downloadEnd { return; }
        start := next;
        var length := Min(config.windowSize, downloadEnd - start + 1);
        end := start + length - 1;
        maxEnd := end;
        next := end + 1;
      }
      first := true;
      active := active + [Slot(start, end, maxEnd, false, 0, Threshold(end - start + 1), 0, 0, 0)];
      started := started + [(start, maxEnd)];
    }

    method Run()
      requires Accepts(config, total) && Value() == Fresh(config, total)
      modifies this
      ensures Value() == Begin(config, old(total))
    {
      if total.Some? && count == Last(config, total.value) - config.start + 1 {
        End(Success);
        return;
      }
      StartNextRange();
    }

    method HandleCoverage(k: nat)
      requires 0 < config.discoveryLength <= config.windowSize
      requires outcome.Pending? ==> k < |active| && Length(total, active[k]) >= 0
      modifies this
      ensures Value() == Covered(config, old(Value()), k)
    {
      if !outcome.Pending? { return; }
      var covered := active[k].cached + active[k].delivered;
      var needed := Threshold(Length(total, active[k]));
      active := active[k := active[k].(covered := covered, needed := needed)];
      if covered >= needed { StartNextRange(); }
    }

    /** The loader's answer for a range; a bad one fails the download. */
    method LoadAndRunRange(k: nat, values: seq<int>)
      requires 0 < config.discoveryLength <= config.windowSize && Sane(Value()) && outcome.Pending? && k < |active|
      modifies this
      ensures Value() == if Usable(values, SlotAt(old(Value()), k).start, SlotEnd(old(total), SlotAt(old(Value()), k)))
                         then Load(config, old(Value()), k, |values|) else Finish(old(Value()), Failure)
      ensures Usable(values, SlotAt(old(Value()), k).start, SlotEnd(old(total), SlotAt(old(Value()), k))) ==>
                |values| <= Length(old(total), SlotAt(old(Value()), k))
    {
      var ok := CheckCachedIndexes(values, active[k].start, SlotEnd(total, active[k]));
      if !ok {
        End(Failure);
        return;
      }
      loaded := loaded + |values|;
      if loaded > count {
        End(Failure);
        return;
      }
      active := active[k := active[k].(worker := true, cached := |values|)];
      HandleCoverage(k);
    }

    ghost function SlotAt(q: State, k: nat): Slot
      requires k < |q.active|
    {
      q.active[k]
    }

    /** A chunk, and then the worker's new coverage. */
    method HandleChunk(k: nat)
      requires 0 < config.discoveryLength <= config.windowSize && Sane(Value()) && outcome.Pending? && k < |active|
      modifies this
      ensures Value() == Deliver(config, old(Value()), k)
    {
      active := active[k := active[k].(delivered := active[k].delivered + 1)];
      count := count + 1;
      if total.Some? && count > Last(config, total.value) - config.start + 1 { End(Failure); }
      HandleCoverage(k);
    }

    method HandleMissing(k: nat)
      requires outcome.Pending? && k < |active|
      modifies this
      ensures Value() == Miss(config, old(Value()), k)
    {
      active := active[k := active[k].(missing := active[k].missing + 1)];
      missing := missing + 1;
      if config.abortOnFailure { End(Failure); }
    }

    /** A worker discovered a total; one that does not contain the requested interval is refused, and its chunk ignored. */
    method HandleTotal(k: nat, chunks: nat) returns (ok: bool)
      requires 0 < config.discoveryLength <= config.windowSize && Sane(Value()) && total.None? && outcome.Pending? && k < |active|
      modifies this
      ensures ok <==> config.start < chunks && (config.end.Some? ==> config.end.value < chunks)
      ensures Value() == if ok then Discover(config, old(Value()), k, chunks) else old(Value())
    {
      ok := config.start < chunks && (config.end.None? || config.end.value < chunks);
      if !ok { return; }
      total := Some(chunks);
      HandleCoverage(k);
    }

    method HandleRangeFinished(k: nat)
      requires 0 < config.discoveryLength <= config.windowSize && outcome.Pending? && k < |active|
      modifies this
      ensures Value() == Close(config, old(Value()), k)
    {
      closed := closed + [active[k]];
      active := active[..k] + active[k + 1..];
      if |active| == 0 {
        StartNextRange();
      } else {
        var remaining := active[0];
        if remaining.worker && remaining.covered >= remaining.needed { StartNextRange(); }
      }
      if |active| == 0 && (total.None? || next > Last(config, total.value)) { End(Success); }
    }
  }
}
