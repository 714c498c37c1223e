/** What the range downloader asks for, in which order, what it makes of a chunk, and when it may give an index up. */
module RangeLaws {
  import opened Basics
  import opened Sorting
  import opened BatchSelection
  import opened RangeDownload
  import opened RangeSafety

  ghost predicate Ascending(s: seq<nat>) { forall i, j | 0 <= i < j < |s| :: s[i] < s[j] }

  /** Fewest first, equals by index. */
  ghost predicate Lexical(s: seq<nat>, key: nat -> int) {
    forall i, j | 0 <= i < j < |s| :: key(s[i]) < key(s[j]) || (key(s[i]) == key(s[j]) && s[i] < s[j])
  }

  lemma {:induction false} InsertLexical(x: nat, s: seq<nat>, key: nat -> int)
    requires Lexical(s, key) && forall y | y in s :: x < y
    ensures Lexical(InsertBy(x, s, key), key)
  {
    if s != [] && key(x) > key(s[0]) {
      assert forall y | y in s[1..] :: y in s;
      InsertLexical(x, s[1..], key);
      var tail := InsertBy(x, s[1..], key);
      forall y | y in tail ensures key(s[0]) < key(y) || (key(s[0]) == key(y) && s[0] < y) {
        assert y in multiset(tail);
        if y != x {
          var j :| 0 <= j < |s[1..]| && s[1..][j] == y;
          assert s[j + 1] == y;
        }
      }
      hide InsertBy;
      LexicalCons(s[0], tail, key);
    } else {
      forall y | y in s ensures key(x) <= key(y) && x < y {
        var j :| 0 <= j < |s| && s[j] == y;
      }
      LexicalCons(x, s, key);
    }
  }

  lemma LexicalCons(x: nat, s: seq<nat>, key: nat -> int)
    requires Lexical(s, key) && forall y | y in s :: key(x) < key(y) || (key(x) == key(y) && x < y)
    ensures Lexical([x] + s, key)
  {
    assert forall j | 0 <= j < |s| :: s[j] in s;
  }

  lemma {:induction false} SortLexical(s: seq<nat>, key: nat -> int)
    requires Ascending(s)
    ensures Lexical(SortBy(s, key), key)
  {
    if s != [] {
      SortLexical(s[1..], key);
      SortByIsSorted(s[1..], key);
      forall y | y in SortBy(s[1..], key) ensures s[0] < y { assert y in s[1..]; }
      InsertLexical(s[0], SortBy(s[1..], key), key);
    }
  }

  lemma {:induction false} FilteredAscends(s: seq<nat>, p: nat -> bool)
    requires Ascending(s)
    ensures Ascending(Filtered(s, p))
  {
    if s != [] {
      FilteredAscends(s[1..], p);
      FilteredKeeps(s[1..], p);
      forall y | y in Filtered(s[1..], p) ensures s[0] < y { assert y in s[1..]; }
      assert forall j | 0 <= j < |Filtered(s[1..], p)| :: Filtered(s[1..], p)[j] in Filtered(s[1..], p);
    }
  }

  /** Missing, in this author mode, and this relay was never asked for it in this mode. */
  ghost predicate MayAsk(q: State, r: nat, fallback: bool, i: nat) {
    i in q.missing && (i in q.fallbacks) == fallback && Ask(r, fallback, i) !in q.asked
  }

  /**
   * What a relay may be asked for in an author mode, in the order of preference: first what nobody fetches, by index; then
   * what others fetch, those with the fewest batches first.
   */
  lemma Preference(q: State, r: nat, fallback: bool)
    requires Core(q) && Ascending(q.missing) && r < |q.relays|
    ensures var untried, inFlight := Untried(q, r, fallback), InFlight(q, r, fallback);
            && Ascending(untried)
            && (forall i :: i in untried <==> MayAsk(q, r, fallback, i) && Containing(q.outstanding, i) == 0)
            && (forall i :: i in inFlight <==> MayAsk(q, r, fallback, i) && Containing(q.outstanding, i) > 0)
            && forall i, j | 0 <= i < j < |inFlight| ::
                 var a, b := Containing(q.outstanding, inFlight[i]), Containing(q.outstanding, inFlight[j]);
                 a < b || (a == b && inFlight[i] < inFlight[j])
  {
    var p := (i: nat) => Open(q, r, fallback, i) && i !in q.counters;
    var p' := (i: nat) => Open(q, r, fallback, i) && i in q.counters;
    var key := (i: nat) => CountOf(q.counters, i);
    FilteredAscends(q.missing, p);
    FilteredAscends(q.missing, p');
    FilteredKeeps(q.missing, p);
    FilteredKeeps(q.missing, p');
    SortLexical(Filtered(q.missing, p'), key);
    SortByIsSorted(Filtered(q.missing, p'), key);
    forall i | i in q.missing
      ensures CountOf(q.counters, i) == Containing(q.outstanding, i) && (i in q.counters <==> Containing(q.outstanding, i) > 0)
      ensures Ask(r, fallback, i) in q.asked <==> i in TriedBy(q.relays[r], fallback)
    {
      Fetchers(q, r, fallback, i);
    }
    hide Core, Filtered, SortBy, CountOf, TriedBy, Containing;
    assert InFlight(q, r, fallback) == SortBy(Filtered(q.missing, p'), key);
  }

  lemma Fetchers(q: State, r: nat, fallback: bool, i: nat)
    requires Core(q) && i in q.missing && r < |q.relays|
    ensures CountOf(q.counters, i) == Containing(q.outstanding, i) && (i in q.counters <==> Containing(q.outstanding, i) > 0)
    ensures Ask(r, fallback, i) in q.asked <==> i in TriedBy(q.relays[r], fallback)
  {
    hide Shape, Partition, Slots, ReportedForGood, Provisional, Containing, TriedBy;
  }

  lemma OpenIs(q: State, r: nat, fallback: bool, i: nat)
    requires Core(q) && r < |q.relays|
    ensures i in q.missing && Open(q, r, fallback, i) <==> MayAsk(q, r, fallback, i)
  {
    hide Shape, Partition, Counted, Slots, ReportedForGood, Provisional, TriedBy;
  }

  /** Of these lists, what is in `idx` is as much as fits, the untried ones first. */
  ghost predicate Fills(batchSize: nat, untried: seq<nat>, inFlight: seq<nat>, idx: seq<nat>) {
    && |idx| == Min(batchSize, |untried| + |inFlight|)
    && forall x, y | x in idx && x in inFlight && y in untried :: y in idx
  }

  /** What a selection picks: own authors first, and only what may be asked. */
  lemma SelectedIs(q: State, r: nat)
    requires Core(q) && r < |q.relays|
    ensures var (fallback, idx) := SelectBatch(q, r);
            && (idx == [] <==> forall fb, i :: !MayAsk(q, r, fb, i)) && NoDup(idx)
            && (idx != [] ==> (fallback <==> forall i :: !MayAsk(q, r, false, i)))
            && (forall i | i in idx :: MayAsk(q, r, fallback, i))
            && (r <= |Untried(q, r, fallback)| ==> Fills(q.batchSize, Untried(q, r, fallback), InFlight(q, r, fallback), idx))
  {
    CoreShape(q);
    ModeIs(q, r, false);
    ModeIs(q, r, true);
    hide Core, SelectMode, Indexes, MayAsk, Fills, Untried, InFlight, NoDup;
  }

  lemma ModeIs(q: State, r: nat, fallback: bool)
    requires Core(q) && r < |q.relays|
    ensures var idx := Indexes(SelectMode(q, r, fallback));
            && (idx == [] <==> forall i :: !MayAsk(q, r, fallback, i)) && NoDup(idx)
            && (forall i | i in idx :: MayAsk(q, r, fallback, i))
            && (r <= |Untried(q, r, fallback)| ==> Fills(q.batchSize, Untried(q, r, fallback), InFlight(q, r, fallback), idx))
  {
    CoreShape(q);
    ModeOpen(q, r, fallback);
    var idx := Indexes(SelectMode(q, r, fallback));
    forall i ensures i in q.missing && Open(q, r, fallback, i) <==> MayAsk(q, r, fallback, i) { OpenIs(q, r, fallback, i); }
    SomeIndex(idx);
    if r <= |Untried(q, r, fallback)| { SelectionSize(q, r, fallback); }
    hide Core, SelectMode, Indexes, Open, MayAsk, Fills, Untried, InFlight, NoDup;
  }

  /**
   * A request asks this relay at once, with one batch, exactly when the run goes on, none of the relay's batches is still
   * queued, fewer than three are out and there is something to ask. It asks any author only when nothing is left for the
   * own ones, and as long as the offset lies inside the list of what nobody fetches it asks for as many as it can.
   */
  lemma RequestIs(q: State, r: nat, started: bool)
    requires Core(q) && r < |q.relays|
    ensures var q' := Request(q, r, started);
            if q.running && !q.relays[r].pending && ByRelay(q.outstanding, r) < 3 && exists fallback, i :: MayAsk(q, r, fallback, i) then
              && |q'.outstanding| == |q.outstanding| + 1 && q.outstanding <= q'.outstanding
              && var b := q'.outstanding[|q.outstanding|];
              && b.relay == r && b.started == started && b.indexes != [] && NoDup(b.indexes)
              && (b.fallback <==> forall i :: !MayAsk(q, r, false, i))
              && (forall i | i in b.indexes :: MayAsk(q, r, b.fallback, i))
              && q'.asked == q.asked + Asks(r, b.fallback, b.indexes)
              && (r <= |Untried(q, r, b.fallback)| ==>
                    Fills(q.batchSize, Untried(q, r, b.fallback), InFlight(q, r, b.fallback), b.indexes))
            else q' == q
  {
    SelectedIs(q, r);
    MaySend(q, r);
    hide Core, MayRequest, MayAsk, SelectBatch, Bumped, AddTried, Fills, Untried, InFlight, ByRelay, NoDup;
  }

  lemma MaySend(q: State, r: nat)
    requires Core(q) && r < |q.relays|
    ensures MayRequest(q, r) <==> q.running && !q.relays[r].pending && ByRelay(q.outstanding, r) < 3
  {
    hide Partition, Counted, AskedOnce, ReportedForGood, Provisional, ByRelay, Queued;
  }

  lemma SomeIndex(idx: seq<nat>)
    ensures idx != [] <==> exists i: nat :: i in idx
  {
    if idx != [] { assert idx[0] in idx; }
  }

  lemma SelectionSize(q: State, r: nat, fallback: bool)
    requires Core(q) && r < |q.relays| && r <= |Untried(q, r, fallback)|
    ensures Fills(q.batchSize, Untried(q, r, fallback), InFlight(q, r, fallback), Indexes(SelectMode(q, r, fallback)))
  {
    CoreShape(q);
    ListsOpen(q, r, fallback);
    var untried, inFlight := Untried(q, r, fallback), InFlight(q, r, fallback);
    assert q.batchSize > 0;
    hide Core, Untried, InFlight, Open, BatchOf, Shape;
    SelectionTheorem(q.batchSize, untried, inFlight, |q.relays|, r);
    SelectionFills(q.batchSize, untried, inFlight, SelectMode(q, r, fallback));
    hide FromLists, DistinctIndexes, UntriedFirst;
  }

  lemma SelectionFills(batchSize: nat, untried: seq<nat>, inFlight: seq<nat>, selected: seq<Selected>)
    requires |selected| == Min(batchSize, |untried| + |inFlight|) && forall x | x in untried :: x !in inFlight
    requires FromLists(selected, untried, inFlight) && UntriedFirst(selected, untried)
    ensures Fills(batchSize, untried, inFlight, Indexes(selected))
  {
    AllReal(selected);
    forall x ensures x in Indexes(selected) <==> exists i | 0 <= i < |selected| :: selected[i].index == Some(x) { IndexesMember(selected, x); }
    hide Indexes;
    forall x, y | x in Indexes(selected) && x in inFlight && y in untried ensures y in Indexes(selected) {
      var i :| 0 <= i < |selected| && selected[i].index == Some(x);
      assert !selected[i].wasUntried;
      var j :| 0 <= j < i && selected[..i][j] == Selected(Some(y), true);
      assert selected[j].index == Some(y);
    }
  }

  lemma {:induction false} AllReal(selected: seq<Selected>)
    requires forall i | 0 <= i < |selected| :: selected[i].index.Some?
    ensures |Indexes(selected)| == |selected|
  {
    if selected != [] { AllReal(selected[1..]); }
  }

  lemma CoreShape(q: State)
    requires Core(q)
    ensures Shape(q)
  {
    hide Partition, Counted, Slots, AskedOnce, ReportedForGood, Provisional;
  }

  // ---- the missing indexes stay in ascending order ----

  lemma {:induction false} RebuiltAscends(start: nat, end: int, covered: set<nat>)
    requires start <= end + 1
    ensures Ascending(Rebuilt(start, end, covered))
    decreases end
  {
    if start <= end {
      RebuiltAscends(start, end - 1, covered);
      RebuiltIs(start, end - 1, covered);
      var before := Rebuilt(start, end - 1, covered);
      assert forall j | 0 <= j < |before| :: before[j] in before;
    }
  }

  lemma ReceiveAscends(q: State, k: nat, i: nat, total: nat, w: World)
    requires Inv(q) && Ascending(q.missing) && k < |q.outstanding|
    ensures Ascending(Receive(q, k, i, total, w).missing)
  {
    CoreShape(q);
    hide Core, Alive, Schedule, Ascending;
    CoverAscends(q, i);
    if q.total.None? && q.start < total {
      BoundedKeeps(q, total);
      RebuiltAscends(q.start, Min(q.maxEnd, total - 1), set x | x in q.covered && x <= Min(q.maxEnd, total - 1));
      ScheduleKeeps(Bounded(q, total), w);
      CoverAscends(Schedule(Bounded(q, total), w), i);
    }
    hide Cover;
  }

  lemma CoverAscends(q: State, i: nat)
    ensures Ascending(q.missing) ==> Ascending(Cover(q, i).missing)
  {
    if Ascending(q.missing) { FilteredAscends(q.missing, (x: nat) => x != i); }
  }

  lemma FinishSame(q: State, w: World)
    requires Core(q)
    ensures MaybeFinish(q, w).missing == q.missing
  {
    ScheduleKeeps(q, w);
    ExhaustKeeps(Schedule(q, w), Schedule(q, w).missing, w);
    hide Core, Schedule, Exhaust, Alive;
  }

  lemma EndSame(q: State, k: nat, w: World)
    requires Inv(q) && k < |q.outstanding| && q.outstanding[k].relay < |q.relays|
    ensures EndBatch(q, k, w).missing == q.missing
  {
    hide Core, Alive, Schedule, Exhaust, MaybeFinish, Drop;
    DropKeeps(q, k);
    var dropped := Drop(q, k);
    ExhaustKeeps(dropped, q.outstanding[k].indexes, w);
    var reported := Exhaust(dropped, q.outstanding[k].indexes, w);
    ScheduleKeeps(reported, w);
    FinishSame(Schedule(reported, w), w);
  }

  lemma EventAscends(q: State, e: Event)
    requires Inv(q) && Ascending(q.missing) && Enabled(q, e)
    ensures Shape(q) && Ascending(Happen(q, e).missing)
  {
    assert Shape(q);
    hide Core, Alive, Request, EndBatch, Receive, Ascending;
    match e {
      case Start(k) => { }
      case Chunk(k, i, total, w) => { ReceiveAscends(q, k, i, total, w); }
      case HalfBatch(r, started) => { RequestKeeps(q, r, started); }
      case End(k, w) => { EndSame(q, k, w); }
      case Abort => { }
    }
  }

  /** Over every run of a downloader whose missing indexes were filled in order, so that `Preference` speaks of all of it. */
  lemma {:induction false} RunAscends(q: State, w: World, states: seq<State>, events: seq<Event>, n: nat)
    requires Fresh(q) && Ascending(q.missing) && IsRun(states, events) && states[0] == Begin(q, w) && n < |states|
    ensures Inv(states[n]) && Core(states[n]) && Ascending(states[n].missing)
  {
    hide Fresh, Begin, Happen, Ascending, Core;
    if n > 0 {
      RunAscends(q, w, states, events, n - 1);
      EventAscends(states[n - 1], events[n - 1]);
      EventKeeps(states[n - 1], events[n - 1]);
      assert states[n] == Happen(states[n - 1], events[n - 1]);
    } else {
      BeginKeeps(q, w);
      BeginSame(q, w);
    }
    hide IsRun;
  }

  lemma BeginSame(q: State, w: World)
    requires Fresh(q)
    ensures Begin(q, w).missing == q.missing
  {
    assert Core(q);
    ScheduleKeeps(q, w);
    hide Core, Schedule, MaybeFinish, Alive;
    FinishSame(Schedule(q, w), w);
  }

  // ---- a chunk ----

  /**
   * A chunk that its batch asked for: delivered and covered if it is still missing and its total is the one known, or the first
   * one told, which then bounds the range; with another total, or a total that does not reach the range, it is ignored.
   */
  lemma ReceiveIs(q: State, k: nat, i: nat, total: nat, w: World)
    requires Inv(q) && q.running && k < |q.outstanding| && i in q.outstanding[k].indexes
    ensures var q' := Receive(q, k, i, total, w);
            && q'.lost == q.lost && q'.reported == q.reported && q'.running
            && (if (q.total.Some? && q.total.value != total) || (q.total.None? && total <= q.start) then q' == q
                else
                  var fits := if q.total.Some? then i in q.missing else i <= Min(q.maxEnd, total - 1) && i !in q.cached;
                  && q'.total == Some(total)
                  && (q.total.None? ==> q'.end == Min(q.maxEnd, total - 1))
                  && q'.delivered == (if fits then q.delivered + [i] else q.delivered)
                  && (fits ==> i !in q'.missing && i in q'.covered))
  {
    CoreShape(q);
    InformedIsKnown(q);
    hide Alive, Schedule;
    if q.total.Some? {
      if total == q.total.value { CoverIs(q, i); }
    } else if total > q.start {
      BoundedKeeps(q, total);
      ScheduleKeeps(Bounded(q, total), w);
      BoundedHas(q, total, k, i);
      hide Core, Bounded, Shape;
      CoverIs(Schedule(Bounded(q, total), w), i);
    }
    hide Cover, Bounded;
  }

  lemma CoverIs(q: State, i: nat)
    requires q.running
    ensures var q' := Cover(q, i);
            && q'.lost == q.lost && q'.reported == q.reported && q'.running && q'.total == q.total && q'.end == q.end
            && (if i in q.missing then q'.delivered == q.delivered + [i] && i !in q'.missing && i in q'.covered else q' == q)
  {
    FilteredKeeps(q.missing, (x: nat) => x != i);
    hide Filtered;
  }

  lemma BoundedHas(q: State, total: nat, k: nat, i: nat)
    requires Core(q) && q.total.None? && q.start < total && k < |q.outstanding| && i in q.outstanding[k].indexes
    ensures var d := Bounded(q, total);
            && (i in d.missing <==> i <= Min(q.maxEnd, total - 1) && i !in q.cached)
            && d.total == Some(total) && d.end == Min(q.maxEnd, total - 1) && d.running == q.running
            && d.delivered == q.delivered && d.lost == q.lost && d.reported == q.reported
  {
    var end := Min(q.maxEnd, total - 1);
    RebuiltIs(q.start, end, set x | x in q.covered && x <= end);
    assert Ask(q.outstanding[k].relay, q.outstanding[k].fallback, i) in q.asked;
    hide Counted, Slots, ReportedForGood, Rebuilt, NoDup;
  }

  // ---- giving up ----

  /** Every relay was asked for the index in this author mode. */
  ghost predicate AllAsked(q: State, fallback: bool, i: nat) {
    forall r | 0 <= r < |q.relays| :: Ask(r, fallback, i) in q.asked
  }

  /**
   * An exhausted index is one that nobody fetches and every relay was asked for: it is promoted to any author once, and
   * reported missing after that, or at once without the fallback. While the total is unknown only index 0 is looked at.
   */
  lemma GivesUp(q: State, i: nat)
    requires Core(q)
    ensures var q' := ExhaustOne(q, i);
            var exhausted := (q.total.Some? || i == 0) && i in q.missing && i !in q.lost && Containing(q.outstanding, i) == 0
                             && AllAsked(q, i in q.fallbacks, i);
            if !exhausted then q' == q
            else if i !in q.fallbacks && q.canFallBack then q' == q.(fallbacks := q.fallbacks + {i})
            else q' == q.(lost := q.lost + [i], reported := q'.reported) && i in q'.reported
  {
    AskedIs(q, i in q.fallbacks, i);
    if i in q.missing { Fetchers0(q, i); }
    assert i in q.lost <==> i in q.reported by { hide Shape, Partition, Counted, Slots, AskedOnce, Provisional; }
    hide Core, AllTried, AllAsked, Containing, CountOf;
  }

  lemma AskedIs(q: State, fallback: bool, i: nat)
    requires Core(q)
    ensures AllAsked(q, fallback, i) <==> forall r | 0 <= r < |q.relays| :: i in TriedBy(q.relays[r], fallback)
  {
    hide Shape, Partition, Counted, Slots, ReportedForGood, Provisional, TriedBy;
    forall r | 0 <= r < |q.relays| ensures Ask(r, fallback, i) in q.asked <==> i in TriedBy(q.relays[r], fallback) { }
  }

  lemma Fetchers0(q: State, i: nat)
    requires Core(q) && i in q.missing
    ensures CountOf(q.counters, i) == Containing(q.outstanding, i)
  {
    hide Shape, Partition, Slots, ReportedForGood, Provisional, AskedOnce, Containing;
  }

  /** An index is promoted only after every relay was asked for the own authors' chunk. */
  ghost predicate Patient(q: State) {
    forall i, r | i in q.fallbacks && 0 <= r < |q.relays| :: i in q.relays[r].tried
  }

  /** Nothing that was tried is forgotten, and nothing is promoted. */
  ghost predicate TriesOn(q: State, q': State) {
    && q'.fallbacks == q.fallbacks && |q'.relays| == |q.relays|
    && forall r | 0 <= r < |q.relays| :: q.relays[r].tried <= q'.relays[r].tried
  }

  lemma PatientOn(q: State, q': State)
    requires Patient(q) && TriesOn(q, q')
    ensures Patient(q')
  {
  }

  lemma RequestTries(q: State, r: nat, started: bool)
    requires r < |q.relays|
    ensures TriesOn(q, Request(q, r, started))
  {
    hide SelectBatch, Bumped, Asks;
  }

  lemma {:induction false} RoundTries(q: State, from: nat, w: World)
    ensures TriesOn(q, RequestFrom(q, from, w))
    decreases |q.relays| - from
  {
    hide Request;
    if from < |q.relays| {
      RequestTries(q, from, w.starts(from));
      RoundTries(Request(q, from, w.starts(from)), from + 1, w);
    }
  }

  lemma ScheduleTries(q: State, w: World)
    ensures TriesOn(q, Schedule(q, w))
  {
    RoundTries(q, 0, w);
    hide RequestFrom;
  }

  lemma {:induction false} ExhaustPatient(q: State, indexes: seq<nat>, w: World)
    requires Patient(q)
    ensures Patient(Exhaust(q, indexes, w))
    decreases |indexes|
  {
    if indexes != [] && q.running {
      var next := ExhaustOne(q, indexes[0]);
      OnePatient(q, indexes[0]);
      var stopped := if |next.lost| > |q.lost| && w.aborts(indexes[0]) then next.(running := false) else next;
      PatientOn(next, stopped);
      hide ExhaustOne;
      ExhaustPatient(stopped, indexes[1..], w);
    }
  }

  lemma OnePatient(q: State, i: nat)
    requires Patient(q)
    ensures Patient(ExhaustOne(q, i))
  {
    hide CountOf;
    var q' := ExhaustOne(q, i);
    if q'.fallbacks != q.fallbacks {
      forall r | 0 <= r < |q.relays| ensures i in q.relays[r].tried { assert i in TriedBy(q.relays[r], i in q.fallbacks); }
    }
    hide AllTried;
  }

  lemma FinishPatient(q: State, w: World)
    requires Patient(q)
    ensures Patient(MaybeFinish(q, w))
  {
    var scheduled := Schedule(q, w);
    ScheduleTries(q, w);
    PatientOn(q, scheduled);
    ExhaustPatient(scheduled, scheduled.missing, w);
    var last := if q.missing == [] then q else Exhaust(scheduled, scheduled.missing, w);
    PatientOn(last, last.(running := false, finished := true));
    hide Schedule, Exhaust, Patient, TriesOn;
  }

  lemma DropTries(q: State, k: nat)
    requires k < |q.outstanding| && q.outstanding[k].relay < |q.relays|
    ensures TriesOn(q, Drop(q, k))
  {
    hide Lowered;
  }

  lemma EndPatient(q: State, k: nat, w: World)
    requires Patient(q) && k < |q.outstanding| && q.outstanding[k].relay < |q.relays|
    ensures Patient(EndBatch(q, k, w))
  {
    DropTries(q, k);
    var d := Drop(q, k);
    PatientOn(q, d);
    ExhaustPatient(d, q.outstanding[k].indexes, w);
    var e := Exhaust(d, q.outstanding[k].indexes, w);
    ScheduleTries(e, w);
    PatientOn(e, Schedule(e, w));
    FinishPatient(Schedule(e, w), w);
    hide Drop, Schedule, Exhaust, MaybeFinish, Patient, TriesOn;
  }

  lemma ReceiveTries(q: State, k: nat, i: nat, total: nat, w: World)
    requires k < |q.outstanding|
    ensures TriesOn(q, Receive(q, k, i, total, w))
  {
    if q.start < total { ScheduleTries(Bounded(q, total), w); }
    hide Schedule, Filtered, Rebuilt;
  }

  lemma EventPatient(q: State, e: Event)
    requires Inv(q) && Patient(q) && Enabled(q, e)
    ensures Shape(q) && Patient(Happen(q, e))
  {
    assert Shape(q);
    hide Core, Alive, Request, EndBatch, Receive, Patient;
    match e {
      case Start(k) => { StartTries(q, k); PatientOn(q, StartBatch(q, k)); hide StartBatch; }
      case Chunk(k, i, total, w) => { ReceiveTries(q, k, i, total, w); PatientOn(q, Receive(q, k, i, total, w)); }
      case HalfBatch(r, started) => { RequestTries(q, r, started); PatientOn(q, Request(q, r, started)); }
      case End(k, w) => { EndPatient(q, k, w); }
      case Abort => { PatientOn(q, q.(running := false)); }
    }
  }

  lemma StartTries(q: State, k: nat)
    requires k < |q.outstanding| && q.outstanding[k].relay < |q.relays|
    ensures TriesOn(q, StartBatch(q, k))
  {
  }

  lemma {:induction false} RunPatient(states: seq<State>, events: seq<Event>, n: nat)
    requires IsRun(states, events) && Inv(states[0]) && Patient(states[0]) && n < |states|
    ensures Inv(states[n]) && Patient(states[n])
  {
    hide Inv, Patient, Happen;
    if n > 0 {
      RunPatient(states, events, n - 1);
      EventPatient(states[n - 1], events[n - 1]);
      EventKeeps(states[n - 1], events[n - 1]);
      assert states[n] == Happen(states[n - 1], events[n - 1]);
    }
  }

  /**
   * In every run an index is reported missing only after every relay was asked for it among the own authors and, if the
   * fallback is available, among any authors too.
   */
  lemma LostOnlyAfterAll(q: State, w: World, states: seq<State>, events: seq<Event>, n: nat, i: nat)
    requires Fresh(q) && IsRun(states, events) && states[0] == Begin(q, w) && n < |states| && i in states[n].lost
    ensures AllAsked(states[n], false, i) && (q.canFallBack ==> AllAsked(states[n], true, i))
  {
    BeginKeeps(q, w);
    BeginFixed(q, w);
    BeginPatient(q, w);
    hide Begin, Patient, IsRun;
    RunPatient(states, events, n);
    RunFixed(states, events, n);
    LostAsked(states[n], i);
    hide Inv, Fresh, AllAsked;
  }

  lemma BeginPatient(q: State, w: World)
    requires Fresh(q)
    ensures Patient(Begin(q, w))
  {
    ScheduleTries(q, w);
    PatientOn(q, Schedule(q, w));
    FinishPatient(Schedule(q, w), w);
    hide Schedule, MaybeFinish, Patient;
  }

  lemma LostAsked(p: State, i: nat)
    requires Inv(p) && Patient(p) && i in p.lost
    ensures AllAsked(p, false, i) && (p.canFallBack ==> AllAsked(p, true, i))
  {
    AskedIs(p, false, i);
    AskedIs(p, true, i);
    hide Partition, Counted, Slots, AskedOnce, Provisional, Containing, AllAsked;
    assert AllTried(p, i);
  }

  // ---- no relay idles ----

  /** A relay that is asked for nothing could not be asked for anything. */
  ghost predicate BusyRelay(q: State, r: nat) {
    ByRelay(q.outstanding, r) == 0 ==> forall fallback, i :: !MayAsk(q, r, fallback, i)
  }

  ghost predicate NoIdle(q: State) { forall r: nat | r < |q.relays| :: BusyRelay(q, r) }

  lemma RequestBusy(q: State, r: nat, started: bool, x: nat)
    requires Core(q) && q.running && r < |q.relays| && x < |q.relays| && (x == r || BusyRelay(q, x))
    ensures BusyRelay(Request(q, r, started), x)
  {
    RequestIs(q, r, started);
    RequestKeeps(q, r, started);
    IdleIsFree(q, r);
    var q' := Request(q, r, started);
    hide Core, Request, Fills, Alive, Paid, Untried, InFlight;
    if |q'.outstanding| == |q.outstanding| + 1 {
      var b := q'.outstanding[|q.outstanding|];
      assert q'.outstanding == q.outstanding + [b];
      CountsConcat(q.outstanding, [b], x);
      CountsOfOne(b, x);
      hide ByRelay;
      forall fallback, i ensures MayAsk(q', x, fallback, i) ==> MayAsk(q, x, fallback, i) { }
    }
  }

  lemma IdleIsFree(q: State, r: nat)
    requires Core(q) && r < |q.relays|
    ensures ByRelay(q.outstanding, r) == 0 ==> !q.relays[r].pending
  {
    QueuedIsOut(q.outstanding, r);
    hide Partition, Counted, AskedOnce, ReportedForGood, Provisional, ByRelay, Queued;
  }

  lemma {:induction false} QueuedIsOut(outs: seq<Batch>, r: nat)
    ensures Queued(outs, r) <= ByRelay(outs, r)
  {
    if outs != [] { QueuedIsOut(outs[1..], r); }
  }

  lemma {:induction false} RoundBusy(q: State, from: nat, w: World)
    requires Core(q) && q.running && forall x: nat | x < |q.relays| && x < from :: BusyRelay(q, x)
    ensures NoIdle(RequestFrom(q, from, w))
    decreases |q.relays| - from
  {
    hide Core, Request, BusyRelay, Alive, Paid;
    if from < |q.relays| {
      RequestKeeps(q, from, w.starts(from));
      var next := Request(q, from, w.starts(from));
      forall x: nat | x < |next.relays| && x < from + 1 ensures BusyRelay(next, x) { RequestBusy(q, from, w.starts(from), x); }
      RoundBusy(next, from + 1, w);
    }
  }

  lemma ScheduleBusy(q: State, w: World)
    requires Core(q) && q.running
    ensures NoIdle(Schedule(q, w))
  {
    RoundBusy(q, 0, w);
    hide RequestFrom, ByRelay;
  }

  lemma CoverBusy(q: State, i: nat)
    requires NoIdle(q)
    ensures NoIdle(Cover(q, i))
  {
    FilteredKeeps(q.missing, (x: nat) => x != i);
    hide Filtered, ByRelay;
    var q' := Cover(q, i);
    forall x | x in q'.missing ensures x in q.missing { }
    forall r: nat | r < |q'.relays| ensures BusyRelay(q', r) {
      assert BusyRelay(q, r);
      forall fallback, x ensures MayAsk(q', r, fallback, x) ==> MayAsk(q, r, fallback, x) { }
    }
  }

  lemma FinishBusy(q: State, w: World)
    requires Core(q) && (q.running ==> NoIdle(q))
    ensures MaybeFinish(q, w).running ==> NoIdle(MaybeFinish(q, w))
  {
    if q.running { ScheduleBusy(q, w); }
    hide Schedule, Exhaust, NoIdle, Core;
  }

  lemma EndBusy(q: State, k: nat, w: World)
    requires Inv(q) && k < |q.outstanding| && q.outstanding[k].relay < |q.relays|
    ensures EndBatch(q, k, w).running ==> NoIdle(EndBatch(q, k, w))
  {
    hide Core, Alive, Schedule, Exhaust, MaybeFinish, Drop, NoIdle;
    DropKeeps(q, k);
    var dropped := Drop(q, k);
    ExhaustKeeps(dropped, q.outstanding[k].indexes, w);
    var reported := Exhaust(dropped, q.outstanding[k].indexes, w);
    ScheduleKeeps(reported, w);
    if reported.running { ScheduleBusy(reported, w); }
    FinishBusy(Schedule(reported, w), w);
  }

  lemma ReceiveBusy(q: State, k: nat, i: nat, total: nat, w: World)
    requires Inv(q) && q.running && NoIdle(q) && k < |q.outstanding|
    ensures NoIdle(Receive(q, k, i, total, w))
  {
    hide Core, Alive, Schedule, NoIdle, Cover, Bounded;
    CoverBusy(q, i);
    if q.total.None? && q.start < total {
      BoundedKeeps(q, total);
      BoundedFields(q, total);
      ScheduleBusy(Bounded(q, total), w);
      CoverBusy(Schedule(Bounded(q, total), w), i);
    }
  }

  lemma StartBusy(q: State, k: nat)
    requires NoIdle(q) && k < |q.outstanding| && !q.outstanding[k].started && q.outstanding[k].relay < |q.relays|
    ensures NoIdle(StartBatch(q, k))
  {
    var q' := StartBatch(q, k);
    forall r: nat | r < |q'.relays| ensures BusyRelay(q', r) {
      StartCounts(q, k, r);
      assert BusyRelay(q, r);
      forall fallback, i ensures MayAsk(q', r, fallback, i) <==> MayAsk(q, r, fallback, i) { }
    }
  }

  lemma EventBusy(q: State, e: Event)
    requires Inv(q) && Enabled(q, e) && (q.running ==> NoIdle(q))
    ensures Shape(q) && (Happen(q, e).running ==> NoIdle(Happen(q, e)))
  {
    assert Shape(q);
    Revives(q, e);
    hide Core, Alive, Request, EndBatch, Receive, NoIdle;
    if q.running {
      match e {
        case Start(k) => { StartBusy(q, k); }
        case Chunk(k, i, total, w) => { ReceiveBusy(q, k, i, total, w); }
        case HalfBatch(r, started) => { OneBusy(q, r, started); }
        case End(k, w) => { EndBusy(q, k, w); }
        case Abort => { }
      }
    }
  }

  lemma OneBusy(q: State, r: nat, started: bool)
    requires Core(q) && q.running && NoIdle(q) && r < |q.relays|
    ensures NoIdle(Request(q, r, started))
  {
    RequestKeeps(q, r, started);
    var q' := Request(q, r, started);
    forall x: nat | x < |q'.relays| ensures BusyRelay(q', x) {
      assert BusyRelay(q, x);
      RequestBusy(q, r, started, x);
    }
    hide Core, BusyRelay, Request;
  }

  /** A run that is over stays over. */
  lemma Revives(q: State, e: Event)
    requires Inv(q) && Enabled(q, e)
    ensures Shape(q) && (!q.running ==> !Happen(q, e).running)
  {
    assert Shape(q);
    hide Core, Alive;
  }

  /** In every run, as long as it goes on, no relay is without a batch that could be asked for something. */
  lemma {:induction false} RunBusy(q: State, w: World, states: seq<State>, events: seq<Event>, n: nat)
    requires Fresh(q) && IsRun(states, events) && states[0] == Begin(q, w) && n < |states|
    ensures Inv(states[n]) && (states[n].running ==> NoIdle(states[n]))
  {
    hide Fresh, Begin, Happen, NoIdle, Core;
    if n > 0 {
      RunBusy(q, w, states, events, n - 1);
      EventBusy(states[n - 1], events[n - 1]);
      EventKeeps(states[n - 1], events[n - 1]);
      assert states[n] == Happen(states[n - 1], events[n - 1]);
    } else {
      BeginKeeps(q, w);
      BeginBusy(q, w);
    }
    hide IsRun;
  }

  lemma BeginBusy(q: State, w: World)
    requires Fresh(q)
    ensures Begin(q, w).running ==> NoIdle(Begin(q, w))
  {
    assert Core(q);
    ScheduleKeeps(q, w);
    ScheduleBusy(q, w);
    hide Core, Schedule, MaybeFinish, Alive, NoIdle;
    FinishBusy(Schedule(q, w), w);
  }
}
