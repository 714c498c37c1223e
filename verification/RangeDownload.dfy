/**
 * Downloading one bounded range of chunks from several relays: what each synchronous piece of the
 * downloader does to its state. The total may be known from the start or discovered with the first chunk.
 */
module RangeDownload {
  import opened Basics
  import opened Sorting
  import opened BatchSelection

  const MAX_RELAY_BATCHES := 3

  datatype Relay = Relay(tried: set<nat>, fallbackTried: set<nat>, pending: bool, scheduled: nat)

  /** A batch that was handed to the limiter and has not ended. */
  datatype Batch = Batch(relay: nat, fallback: bool, indexes: seq<nat>, started: bool)

  datatype Ask = Ask(relay: nat, fallback: bool, index: nat)

  /**
   * `missing` is a JavaScript Set, kept in ascending insertion order. `canFallBack` is the any-author option
   * together with the presence of an author filter; `informed` says that the total was known from the start.
   * Discovery moves `end`, up to `maxEnd`; `scope` is where it was at first. `asked`, `delivered` and `lost` are histories.
   */
  datatype State = State(
    start: nat,
    end: nat,
    maxEnd: nat,
    scope: nat,
    total: Option<nat>,
    informed: bool,
    batchSize: nat,
    canFallBack: bool,
    cached: set<nat>,
    relays: seq<Relay>,
    missing: seq<nat>,
    covered: set<nat>,
    counters: map<nat, nat>,
    fallbacks: set<nat>,
    reported: set<nat>,
    outstanding: seq<Batch>,
    running: bool,
    finished: bool,
    asked: seq<Ask>,
    delivered: seq<nat>,
    lost: seq<nat>)

  /** What happens outside: does the limiter start a relay's batch at once, does reporting an index abort the run. */
  datatype World = World(starts: nat -> bool, aborts: nat -> bool)

  function TriedBy(relay: Relay, fallback: bool): set<nat> {
    if fallback then relay.fallbackTried else relay.tried
  }

  function Filtered(s: seq<nat>, p: nat -> bool): seq<nat> {
    if s == [] then [] else (if p(s[0]) then [s[0]] else []) + Filtered(s[1..], p)
  }

  /** A missing index that this relay may still be asked for in this author mode. */
  predicate Open(q: State, r: nat, fallback: bool, i: nat)
    requires r < |q.relays|
  {
    (i in q.fallbacks) == fallback && i !in TriedBy(q.relays[r], fallback)
  }

  function Untried(q: State, r: nat, fallback: bool): seq<nat>
    requires r < |q.relays|
  {
    Filtered(q.missing, (i: nat) => Open(q, r, fallback, i) && i !in q.counters)
  }

  function CountOf(counters: map<nat, nat>, i: nat): nat {
    if i in counters then counters[i] else 0
  }

  /** Indexes other relays are already fetching, fewest fetchers first. */
  function InFlight(q: State, r: nat, fallback: bool): seq<nat>
    requires r < |q.relays|
  {
    SortBy(Filtered(q.missing, (i: nat) => Open(q, r, fallback, i) && i in q.counters), (i: nat) => CountOf(q.counters, i))
  }

  function SelectMode(q: State, r: nat, fallback: bool): seq<Selected>
    requires r < |q.relays|
  {
    BatchOf(q.batchSize, Untried(q, r, fallback), InFlight(q, r, fallback), |q.relays|, r)
  }

  /** The real indexes of a selection; an undefined entry stands for no index. */
  function Indexes(selected: seq<Selected>): seq<nat> {
    if selected == [] then []
    else (if selected[0].index.Some? then [selected[0].index.value] else []) + Indexes(selected[1..])
  }

  /** Own authors first, any author only when nothing is left for them. */
  function SelectBatch(q: State, r: nat): (bool, seq<nat>)
    requires r < |q.relays|
  {
    var own := Indexes(SelectMode(q, r, false));
    if own != [] then (false, own) else (true, Indexes(SelectMode(q, r, true)))
  }

  function Bumped(counters: map<nat, nat>, indexes: seq<nat>): map<nat, nat> {
    counters + map i | i in indexes :: CountOf(counters, i) + 1
  }

  function AddTried(relay: Relay, fallback: bool, indexes: seq<nat>): Relay {
    var more := set i | i in indexes;
    if fallback then relay.(fallbackTried := relay.fallbackTried + more) else relay.(tried := relay.tried + more)
  }

  function Asks(r: nat, fallback: bool, indexes: seq<nat>): (a: seq<Ask>)
    ensures |a| == |indexes| && forall i | 0 <= i < |indexes| :: a[i] == Ask(r, fallback, indexes[i])
  {
    seq(|indexes|, i requires 0 <= i < |indexes| => Ask(r, fallback, indexes[i]))
  }

  /** Hands a non-empty batch to the limiter. */
  function Launch(q: State, r: nat, fallback: bool, indexes: seq<nat>, started: bool): State
    requires r < |q.relays|
  {
    var relay := AddTried(q.relays[r], fallback, indexes).(pending := !started, scheduled := q.relays[r].scheduled + 1);
    q.(relays := q.relays[r := relay],
       counters := Bumped(q.counters, indexes),
       outstanding := q.outstanding + [Batch(r, fallback, indexes, started)],
       asked := q.asked + Asks(r, fallback, indexes))
  }

  predicate MayRequest(q: State, r: nat)
    requires r < |q.relays|
  {
    q.running && !q.relays[r].pending && q.relays[r].scheduled < MAX_RELAY_BATCHES
  }

  function Request(q: State, r: nat, started: bool): State
    requires r < |q.relays|
  {
    var (fallback, indexes) := SelectBatch(q, r);
    if !MayRequest(q, r) || indexes == [] then q else Launch(q, r, fallback, indexes, started)
  }

  function RequestFrom(q: State, r: nat, w: World): State
    decreases |q.relays| - r
  {
    if r >= |q.relays| then q else RequestFrom(Request(q, r, w.starts(r)), r + 1, w)
  }

  function Schedule(q: State, w: World): State {
    if !q.running || q.missing == [] then q else RequestFrom(q, 0, w)
  }

  /** No relay is left to ask in the index's current author mode. */
  predicate AllTried(q: State, i: nat) {
    forall r | 0 <= r < |q.relays| :: i in TriedBy(q.relays[r], i in q.fallbacks)
  }

  /** One index of `checkExhaustedIndexes`: skip it, promote it to any author, or report it missing. */
  function ExhaustOne(q: State, i: nat): State {
    if q.total.None? && i > 0 then q
    else if i !in q.missing || i in q.reported || CountOf(q.counters, i) > 0 || !AllTried(q, i) then q
    else if i !in q.fallbacks && q.canFallBack then q.(fallbacks := q.fallbacks + {i})
    else q.(reported := q.reported + {i}, lost := q.lost + [i])
  }

  function Exhaust(q: State, indexes: seq<nat>, w: World): State
    decreases |indexes|
  {
    if indexes == [] || !q.running then q
    else
      var next := ExhaustOne(q, indexes[0]);
      Exhaust(if |next.lost| > |q.lost| && w.aborts(indexes[0]) then next.(running := false) else next, indexes[1..], w)
  }

  function MaybeFinish(q: State, w: World): State {
    if !q.running || q.outstanding != [] then q
    else
      var scheduled := Schedule(q, w);
      if q.missing != [] && scheduled.outstanding != [] then scheduled
      else
        var last := if q.missing == [] then q else Exhaust(scheduled, scheduled.missing, w);
        if last.running then last.(running := false, finished := true) else last
  }

  /** The limiter starts a queued batch. */
  function StartBatch(q: State, k: nat): State
    requires k < |q.outstanding| && q.outstanding[k].relay < |q.relays|
  {
    var b := q.outstanding[k];
    q.(outstanding := q.outstanding[k := b.(started := true)],
       relays := q.relays[b.relay := q.relays[b.relay].(pending := false)])
  }

  /** The indexes of a range that are not covered, in ascending order. */
  function Rebuilt(start: nat, end: int, covered: set<nat>): seq<nat>
    decreases end
  {
    if end < start then [] else Rebuilt(start, end - 1, covered) + (if end in covered then [] else [end as nat])
  }

  /** The first authentic chunk tells the total: the range takes its final end and is filled again. */
  function Bounded(q: State, total: nat): State
    requires q.start < total
  {
    var end := Min(q.maxEnd, total - 1);
    var covered := set i | i in q.covered && i <= end;
    q.(total := Some(total), end := end, covered := covered, missing := Rebuilt(q.start, end, covered))
  }

  function Discover(q: State, total: nat, w: World): State
    requires q.start < total
  {
    Schedule(Bounded(q, total), w)
  }

  function Cover(q: State, i: nat): State {
    if !q.running || i !in q.missing then q
    else q.(missing := Filtered(q.missing, (x: nat) => x != i), covered := q.covered + {i}, counters := q.counters - {i},
            delivered := q.delivered + [i])
  }

  /** An authenticated chunk event, with the total it claims, arrives on a started batch. */
  function Receive(q: State, k: nat, i: nat, total: nat, w: World): State
    requires k < |q.outstanding|
  {
    if !q.running || i !in q.outstanding[k].indexes then q
    else if q.total.Some? then if total == q.total.value then Cover(q, i) else q
    else if total <= q.start then q
    else Cover(Discover(q, total, w), i)
  }

  function Lowered(counters: map<nat, nat>, missing: seq<nat>, indexes: seq<nat>): map<nat, nat> {
    map i | i in counters && !(i in indexes && i in missing && counters[i] <= 1) ::
      if i in indexes && i in missing then counters[i] - 1 else counters[i]
  }

  /** A batch ended, for whatever reason, and its counters are lowered. */
  function Drop(q: State, k: nat): State
    requires k < |q.outstanding| && q.outstanding[k].relay < |q.relays|
  {
    var b := q.outstanding[k];
    var relay := q.relays[b.relay];
    q.(relays := q.relays[b.relay := relay.(pending := if b.started then relay.pending else false,
                                            scheduled := if relay.scheduled > 0 then relay.scheduled - 1 else 0)],
       outstanding := q.outstanding[..k] + q.outstanding[k + 1..],
       counters := Lowered(q.counters, q.missing, b.indexes))
  }

  function EndBatch(q: State, k: nat, w: World): State
    requires k < |q.outstanding| && q.outstanding[k].relay < |q.relays|
  {
    var dropped := Drop(q, k);
    if !q.running then dropped
    else MaybeFinish(Schedule(Exhaust(dropped, q.outstanding[k].indexes, w), w), w)
  }
}
