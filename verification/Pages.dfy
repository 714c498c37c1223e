/** Subdivision of a saturated history read into rectangles of time, authors and kinds. */
module Pages {
  import opened Basics

  const PAGE_SIZE := 200

  /** Public keys are 64-digit hex strings, whose order is that of the numbers they write. */
  datatype Filter = Filter(authors: seq<nat>, kinds: seq<nat>, since: int, until: int)

  datatype Cell = Cell(author: nat, kind: nat, second: int)

  datatype Event = Event(id: nat, author: nat, kind: nat, createdAt: int)

  /** How a read ended. `Broken`: the stream, the report, the store or the abort signal threw. */
  datatype Ending = Eose | Satisfied | Broken

  /** A relay's answer: the events handed to the store, then the end of the stream. */
  datatype Answer = Answer(events: seq<Event>, ending: Ending)

  /** A first page read by the caller: how many events, the oldest of them, how it ended. */
  datatype FirstPage = FirstPage(count: nat, oldest: Option<int>, ending: Ending)

  ghost predicate InBox(c: Cell, f: Filter) {
    c.author in f.authors && c.kind in f.kinds && f.since <= c.second <= f.until
  }

  function CellOf(e: Event): Cell { Cell(e.author, e.kind, e.createdAt) }

  ghost predicate WellFormed(f: Filter) {
    f.authors != [] && f.kinds != [] && f.since <= f.until && NoDup(f.authors) && NoDup(f.kinds)
  }

  predicate SingleCell(f: Filter) {
    |f.authors| == 1 && |f.kinds| == 1 && f.since == f.until
  }

  function Size(f: Filter): int {
    |f.authors| * |f.kinds| * (f.until - f.since + 1)
  }

  /** Number of rectangles that contain a cell. */
  ghost function Hits(fs: seq<Filter>, c: Cell): nat {
    if fs == [] then 0 else (if InBox(c, fs[0]) then 1 else 0) + Hits(fs[1..], c)
  }

  /** The rectangles partition the box: every cell of it lies in exactly one, no other cell in any. */
  ghost predicate Tiles(fs: seq<Filter>, box: Filter) {
    forall c :: Hits(fs, c) == if InBox(c, box) then 1 else 0
  }

  /** `later` holds only older seconds than `f`, or both sit on the same single second. */
  ghost predicate NotNewer(f: Filter, later: Filter) {
    later.until < f.since || f.since == f.until == later.since == later.until
  }

  ghost predicate NewestFirst(fs: seq<Filter>) {
    forall i, j | 0 <= i < j < |fs| :: NotNewer(fs[i], fs[j])
  }

  /** Upper bound on the reads a stack of rectangles can still cause. */
  function Budget(fs: seq<Filter>): int {
    if fs == [] then 0 else 2 * Size(fs[0]) - 1 + Budget(fs[1..])
  }

  /**
   * The relay model: a fixed event set, about which a read promises one thing only.
   * An answer that ended with EOSE below the page limit left no matching event out.
   */
  ghost predicate Honest(relay: set<Event>, f: Filter, a: Answer) {
    a.ending.Eose? && |a.events| < PAGE_SIZE ==>
      forall e | e in relay && InBox(CellOf(e), f) :: e in a.events
  }

  /** Every relay event of the rectangle was handed to the store. */
  ghost predicate Stored(relay: set<Event>, f: Filter, store: set<Event>) {
    forall e | e in relay && InBox(CellOf(e), f) :: e in store
  }

  // ---- splitting ----

  function MiddleSecond(f: Filter, oldest: Option<int>): int {
    if oldest.Some? && f.since <= oldest.value <= f.until then
      if f.since < oldest.value - 1 then oldest.value - 1 else f.since
    else f.since + (f.until - f.since) / 2
  }

  /** Two rectangles, newer first, for a saturated read of more than one cell. */
  function Split(f: Filter, oldest: Option<int>): (Filter, Filter) {
    if f.since < f.until then
      var middle := MiddleSecond(f, oldest);
      (f.(since := middle + 1), f.(until := middle))
    else if |f.authors| > 1 then
      var half := CeilHalf(|f.authors|);
      (f.(authors := f.authors[..half]), f.(authors := f.authors[half..]))
    else
      var half := CeilHalf(|f.kinds|);
      (f.(kinds := f.kinds[..half]), f.(kinds := f.kinds[half..]))
  }

  lemma HalvesPartition<T>(s: seq<T>, x: T)
    requires NoDup(s) && |s| > 1
    ensures var half := CeilHalf(|s|);
            && 0 < half < |s|
            && NoDup(s[..half]) && NoDup(s[half..])
            && (x in s <==> x in s[..half] || x in s[half..])
            && !(x in s[..half] && x in s[half..])
  {
    assert s == s[..CeilHalf(|s|)] + s[CeilHalf(|s|)..];
  }

  lemma SizeAdds(x: int, y: int, d: int, e: int)
    ensures x * y * (d + e) == x * y * d + x * y * e
    ensures (x + d) * y * e == x * y * e + d * y * e
    ensures x * (y + d) * e == x * y * e + x * d * e
  {
    assert (x * y) * (d + e) == (x * y) * d + (x * y) * e;
    assert (x + d) * y == x * y + d * y;
    assert (x * y + d * y) * e == (x * y) * e + (d * y) * e;
    assert x * (y + d) == x * y + x * d;
    assert (x * y + x * d) * e == (x * y) * e + (x * d) * e;
  }

  lemma SizePositive(f: Filter)
    requires WellFormed(f)
    ensures Size(f) >= 1
  {
    assert |f.authors| * |f.kinds| >= 1;
  }

  /** A split leaves two non-empty, smaller, disjoint rectangles that together are the original one. */
  lemma SplitPartitions(f: Filter, oldest: Option<int>)
    requires WellFormed(f) && !SingleCell(f)
    ensures var (newer, older) := Split(f, oldest);
            && WellFormed(newer) && WellFormed(older)
            && Size(newer) + Size(older) == Size(f)
            && NotNewer(newer, older)
            && f.since <= newer.since && newer.until <= f.until && f.since <= older.since && older.until <= f.until
    ensures var (newer, older) := Split(f, oldest);
            forall c :: (InBox(c, f) <==> InBox(c, newer) || InBox(c, older)) && !(InBox(c, newer) && InBox(c, older))
  {
    var (newer, older) := Split(f, oldest);
    if f.since < f.until {
      SizeAdds(|f.authors|, |f.kinds|, newer.until - newer.since + 1, older.until - older.since + 1);
    } else if |f.authors| > 1 {
      HalvesPartition(f.authors, f.authors[0]);
      SizeAdds(|newer.authors|, |f.kinds|, |older.authors|, 1);
      forall c ensures (InBox(c, f) <==> InBox(c, newer) || InBox(c, older)) && !(InBox(c, newer) && InBox(c, older)) {
        HalvesPartition(f.authors, c.author);
      }
    } else {
      HalvesPartition(f.kinds, f.kinds[0]);
      SizeAdds(|f.authors|, |newer.kinds|, |older.kinds|, 1);
      forall c ensures (InBox(c, f) <==> InBox(c, newer) || InBox(c, older)) && !(InBox(c, newer) && InBox(c, older)) {
        HalvesPartition(f.kinds, c.kind);
      }
    }
  }

  /** Where a page is divided: right before the oldest second that was seen, or else in the middle; then by authors, then by kinds. */
  lemma SplitIs(f: Filter, oldest: Option<int>)
    requires WellFormed(f) && !SingleCell(f)
    ensures var (newer, older) := Split(f, oldest);
            && (f.since < f.until ==>
                  && newer == f.(since := newer.since) && older == f.(until := older.until) && older.until + 1 == newer.since
                  && (oldest.Some? && f.since < oldest.value <= f.until ==> newer.since == oldest.value)
                  && (oldest == Some(f.since) ==> older.until == f.since)
                  && (oldest.None? || oldest.value < f.since || oldest.value > f.until ==>
                        0 <= (older.until - older.since) - (newer.until - newer.since) <= 1))
            && (f.since == f.until && |f.authors| > 1 ==>
                  && newer == f.(authors := newer.authors) && older == f.(authors := older.authors)
                  && newer.authors + older.authors == f.authors && 0 <= |newer.authors| - |older.authors| <= 1)
            && (f.since == f.until && |f.authors| == 1 ==>
                  && newer == f.(kinds := newer.kinds) && older == f.(kinds := older.kinds)
                  && newer.kinds + older.kinds == f.kinds && 0 <= |newer.kinds| - |older.kinds| <= 1)
  {
  }

  // ---- the list "already yielded, then still on the stack" ----

  lemma {:induction false} HitsConcat(a: seq<Filter>, b: seq<Filter>, c: Cell)
    ensures Hits(a + b, c) == Hits(a, c) + Hits(b, c)
  {
    if a == [] {
      assert a + b == b;
    } else {
      assert (a + b)[1..] == a[1..] + b;
      HitsConcat(a[1..], b, c);
    }
  }

  lemma {:induction false} BudgetConcat(a: seq<Filter>, b: seq<Filter>)
    ensures Budget(a + b) == Budget(a) + Budget(b)
  {
    if a == [] {
      assert a + b == b;
    } else {
      assert (a + b)[1..] == a[1..] + b;
      BudgetConcat(a[1..], b);
    }
  }

  lemma HitsAround(pre: seq<Filter>, mid: seq<Filter>, post: seq<Filter>, c: Cell)
    ensures Hits(pre + mid + post, c) == Hits(pre, c) + Hits(mid, c) + Hits(post, c)
  {
    HitsConcat(pre + mid, post, c);
    HitsConcat(pre, mid, c);
  }

  lemma HitsOfFew(f: Filter, g: Filter, c: Cell)
    ensures Hits([f], c) == if InBox(c, f) then 1 else 0
    ensures Hits([f, g], c) == Hits([f], c) + Hits([g], c)
  {
    assert [f][1..] == [] && [g][1..] == [] && [f, g][1..] == [g];
  }

  lemma SplitKeepsTiling(pre: seq<Filter>, f: Filter, post: seq<Filter>, oldest: Option<int>, box: Filter)
    requires WellFormed(f) && !SingleCell(f)
    requires Tiles(pre + [f] + post, box)
    ensures var (newer, older) := Split(f, oldest);
            Tiles(pre + [newer, older] + post, box)
  {
    var (newer, older) := Split(f, oldest);
    SplitPartitions(f, oldest);
    forall c ensures Hits(pre + [newer, older] + post, c) == if InBox(c, box) then 1 else 0 {
      assert Hits(pre + [f] + post, c) == if InBox(c, box) then 1 else 0;
      HitsAround(pre, [f], post, c);
      HitsAround(pre, [newer, older], post, c);
      HitsOfFew(newer, older, c);
      HitsOfFew(older, f, c);
      HitsOfFew(f, f, c);
    }
  }

  lemma SplitKeepsOrder(pre: seq<Filter>, f: Filter, post: seq<Filter>, oldest: Option<int>)
    requires WellFormed(f) && !SingleCell(f)
    requires NewestFirst(pre + [f] + post)
    ensures var (newer, older) := Split(f, oldest);
            NewestFirst(pre + [newer, older] + post)
  {
    var (newer, older) := Split(f, oldest);
    SplitPartitions(f, oldest);
    var was, now := pre + [f] + post, pre + [newer, older] + post;
    var n := |pre|;
    forall i, j | 0 <= i < j < |now| ensures NotNewer(now[i], now[j]) {
      var i' := if i <= n then i else i - 1;
      var j' := if j <= n then j else j - 1;
      if i' < j' {
        assert NotNewer(was[i'], was[j']);
      }
    }
  }

  // ---- the reader ----

  /** What holds of the yielded rectangles, the unread ones (next first) and the number of reads. */
  ghost predicate Progress(box: Filter, yielded: seq<Filter>, rest: seq<Filter>, pages: nat) {
    && (forall i | 0 <= i < |rest| :: WellFormed(rest[i]))
    && (forall i | 0 <= i < |yielded| :: WellFormed(yielded[i]))
    && Tiles(yielded + rest, box)
    && NewestFirst(yielded + rest)
    && pages + Budget(rest) <= 2 * Size(box) - 1
  }

  ghost predicate Confirmed(relay: set<Event>, yielded: seq<Filter>, saturated: set<Filter>, store: set<Event>) {
    && (forall f | f in saturated :: f in yielded && SingleCell(f))
    && (forall f | f in yielded && f !in saturated :: Stored(relay, f, store))
  }

  ghost function EventSet(events: seq<Event>): set<Event> {
    set e | e in events
  }

  lemma StartProgress(box: Filter)
    requires WellFormed(box)
    ensures Progress(box, [], [box], 0)
  {
    assert [] + [box] == [box];
    forall c ensures Hits([box], c) == if InBox(c, box) then 1 else 0 { HitsOfFew(box, box, c); }
    assert Budget([box][1..]) == 0;
  }

  lemma YieldProgress(box: Filter, yielded: seq<Filter>, rest: seq<Filter>, pages: nat)
    requires rest != [] && Progress(box, yielded, rest, pages)
    ensures Progress(box, yielded + [rest[0]], rest[1..], pages + 1)
    ensures 0 <= Budget(rest[1..]) < Budget(rest)
  {
    hide WellFormed, Size, Tiles, NewestFirst;
    SizePositive(rest[0]);
    BudgetNonNegative(rest[1..]);
    assert yielded + rest == yielded + [rest[0]] + rest[1..];
  }

  lemma SplitProgress(box: Filter, yielded: seq<Filter>, rest: seq<Filter>, pages: nat, oldest: Option<int>)
    requires rest != [] && !SingleCell(rest[0]) && Progress(box, yielded, rest, pages)
    ensures var (newer, older) := Split(rest[0], oldest);
            var next := [newer, older] + rest[1..];
            Progress(box, yielded, next, pages + 1) && 0 <= Budget(next) < Budget(rest)
  {
    hide WellFormed, Tiles, NewestFirst, SingleCell, Split;
    var (newer, older) := Split(rest[0], oldest);
    var tail := rest[1..];
    var next := [newer, older] + tail;
    assert yielded + rest == yielded + [rest[0]] + tail;
    assert yielded + next == yielded + [newer, older] + tail;
    SplitKeepsTiling(yielded, rest[0], tail, oldest, box);
    SplitKeepsOrder(yielded, rest[0], tail, oldest);
    SplitPartitions(rest[0], oldest);
    assert next[1..] == [older] + tail && next[1..][1..] == tail;
    BudgetNonNegative(next);
  }

  lemma MoreStored(relay: set<Event>, yielded: seq<Filter>, saturated: set<Filter>, store: set<Event>, more: set<Event>)
    requires Confirmed(relay, yielded, saturated, store) && store <= more
    ensures Confirmed(relay, yielded, saturated, more)
  {
    forall f | f in yielded && f !in saturated ensures Stored(relay, f, more) {
      assert Stored(relay, f, store);
    }
  }

  /** The stack holds what is still unread, the next one on top; only the very first read has the caller's page. */
  ghost predicate StackHolds(pending: seq<(Filter, Option<FirstPage>)>, rest: seq<Filter>, filter: Filter, firstPage: Option<FirstPage>, pages: nat) {
    && |rest| == |pending|
    && (forall i | 0 <= i < |rest| :: rest[i] == pending[|pending| - 1 - i].0)
    && if pages == 0 then pending == [(filter, firstPage)] else forall i | 0 <= i < |pending| :: pending[i].1.None?
  }

  lemma StackStarts(filter: Filter, firstPage: Option<FirstPage>)
    ensures StackHolds([(filter, firstPage)], [filter], filter, firstPage, 0)
  {
  }

  lemma StackTop(pending: seq<(Filter, Option<FirstPage>)>, rest: seq<Filter>, filter: Filter, firstPage: Option<FirstPage>, pages: nat)
    requires StackHolds(pending, rest, filter, firstPage, pages)
    ensures pending == [] <==> rest == []
    ensures pending != [] ==> var (f, page) := pending[|pending| - 1];
                              && rest[0] == f && (page.Some? <==> pages == 0 && firstPage.Some?)
                              && (page.Some? ==> f == filter && page == firstPage)
  {
  }

  lemma StackNext(pending: seq<(Filter, Option<FirstPage>)>, rest: seq<Filter>, filter: Filter, firstPage: Option<FirstPage>, pages: nat)
    requires StackHolds(pending, rest, filter, firstPage, pages) && pending != [] && rest != []
    ensures StackHolds(pending[..|pending| - 1], rest[1..], filter, firstPage, pages + 1)
    ensures forall newer, older ::
              StackHolds(pending[..|pending| - 1] + [(older, None), (newer, None)], [newer, older] + rest[1..], filter, firstPage, pages + 1)
  {
  }

  /** The last of so many reads, of this rectangle, threw: the caller's first page or an answer of the relay. */
  ghost predicate BrokeOn(filter: Filter, firstPage: Option<FirstPage>, answers: (nat, Filter) -> Answer, f: Filter, pages: nat) {
    if pages == 1 && firstPage.Some? then f == filter && firstPage.value.ending.Broken?
    else pages > 0 && answers(pages - 1, f).ending.Broken?
  }

  /** A read that is taken as it is: a complete answer below the limit of 200, or nothing left to divide. */
  ghost predicate Taken(firstPage: Option<FirstPage>, answers: (nat, Filter) -> Answer, n: nat, f: Filter) {
    || SingleCell(f)
    || (if n == 0 && firstPage.Some? then firstPage.value.ending.Eose? && firstPage.value.count < 200
        else answers(n, f).ending.Eose? && |answers(n, f).events| < 200)
  }

  /** The rectangles among those read, in order, that were taken as they are. */
  ghost function TakenOf(firstPage: Option<FirstPage>, answers: (nat, Filter) -> Answer, read: seq<Filter>): seq<Filter> {
    if read == [] then []
    else
      var n := |read| - 1;
      TakenOf(firstPage, answers, read[..n]) + if Taken(firstPage, answers, n, read[n]) then [read[n]] else []
  }

  lemma TakeNone(firstPage: Option<FirstPage>, answers: (nat, Filter) -> Answer)
    ensures TakenOf(firstPage, answers, []) == []
  {
  }

  lemma TakeOne(firstPage: Option<FirstPage>, answers: (nat, Filter) -> Answer, read: seq<Filter>, f: Filter)
    ensures TakenOf(firstPage, answers, read + [f])
         == TakenOf(firstPage, answers, read) + if Taken(firstPage, answers, |read|, f) then [f] else []
  {
    assert (read + [f])[..|read|] == read;
  }

  /**
   * Reads `filter` from the relay, splitting saturated rectangles, and yields each confirmed one.
   * `answers(n, f)` is the relay's answer to the n-th read, about which only honesty is known;
   * `before` is what the caller stored while reading the first page. `rest` is what an error left unread.
   */
  method AccountEventPages(filter: Filter, firstPage: Option<FirstPage>, answers: (nat, Filter) -> Answer,
                           ghost relay: set<Event>, ghost before: set<Event>)
    returns (yielded: seq<Filter>, saturated: set<Filter>, persisted: seq<Event>, ok: bool, pages: nat, ghost rest: seq<Filter>,
             ghost read: seq<Filter>)
    requires WellFormed(filter)
    requires forall n, f :: Honest(relay, f, answers(n, f))
    requires firstPage.Some? && firstPage.value.ending.Eose? && firstPage.value.count < PAGE_SIZE ==> Stored(relay, filter, before)
    ensures Tiles(yielded + rest, filter) && forall i | 0 <= i < |yielded| :: WellFormed(yielded[i])
    ensures NewestFirst(yielded + rest)
    ensures ok ==> rest == []
    ensures |read| == (if ok then pages else pages - 1) && yielded == TakenOf(firstPage, answers, read)
    ensures !ok ==> rest != [] && BrokeOn(filter, firstPage, answers, rest[0], pages)
    ensures pages <= 2 * Size(filter) - 1
    ensures Confirmed(relay, yielded, saturated, before + EventSet(persisted))
  {
    hide Progress, Confirmed, Tiles, NewestFirst, Stored, Honest, EventSet, Size, Budget, WellFormed, TakenOf, Split,
      StackHolds;
    yielded, saturated, persisted, ok, pages, read := [], {}, [], true, 0, [];
    NothingConfirmed(relay, before + EventSet([]));
    TakeNone(firstPage, answers);
    var pending := [(filter, firstPage)];
    rest := [filter];
    StartProgress(filter);
    StackStarts(filter, firstPage);
    while pending != []
      invariant StackHolds(pending, rest, filter, firstPage, pages)
      invariant Progress(filter, yielded, rest, pages)
      invariant |read| == pages && yielded == TakenOf(firstPage, answers, read)
      invariant Confirmed(relay, yielded, saturated, before + EventSet(persisted))
      decreases Budget(rest)
    {
      StackTop(pending, rest, filter, firstPage, pages);
      StackNext(pending, rest, filter, firstPage, pages);
      var (f, page) := pending[|pending| - 1];
      pending := pending[..|pending| - 1];
      var count, oldest, ending := 0, None, Broken;
      if page.Some? {
        count, oldest, ending := page.value.count, page.value.oldest, page.value.ending;
      } else {
        var answer := answers(pages, f);
        count, oldest := Drain(answer.events);
        ending := answer.ending;
        EventsGrow(persisted, answer.events);
        MoreStored(relay, yielded, saturated, before + EventSet(persisted), before + EventSet(persisted + answer.events));
        persisted := persisted + answer.events;
        EventsIn(persisted, answer.events);
        HonestStored(relay, f, answer, before + EventSet(persisted));
      }
      if page.Some? { StoredMore(relay, f, before, before + EventSet(persisted)); }
      assert ending.Eose? && count < PAGE_SIZE ==> Stored(relay, f, before + EventSet(persisted));
      ProgressMeans(filter, yielded, rest, pages);
      YieldProgress(filter, yielded, rest, pages);
      if ending.Broken? {
        ok := false;
        pages := pages + 1;
        return;
      }
      TakeOne(firstPage, answers, read, f);
      read := read + [f];
      if count < PAGE_SIZE && ending.Eose? {
        ConfirmStored(relay, yielded, saturated, before + EventSet(persisted), f);
        yielded, rest := yielded + [f], rest[1..];
      } else if !SingleCell(f) {
        SplitProgress(filter, yielded, rest, pages, oldest);
        var (newer, older) := Split(f, oldest);
        pending := pending + [(older, None), (newer, None)];
        rest := [newer, older] + rest[1..];
      } else {
        ConfirmSaturated(relay, yielded, saturated, before + EventSet(persisted), f);
        saturated := saturated + {f};
        yielded, rest := yielded + [f], rest[1..];
      }
      pages := pages + 1;
    }
    StackTop(pending, rest, filter, firstPage, pages);
    ProgressMeans(filter, yielded, rest, pages);
  }

  lemma ProgressMeans(box: Filter, yielded: seq<Filter>, rest: seq<Filter>, pages: nat)
    requires Progress(box, yielded, rest, pages)
    ensures Tiles(yielded + rest, box) && NewestFirst(yielded + rest) && pages <= 2 * Size(box) - 1
    ensures forall i | 0 <= i < |yielded| :: WellFormed(yielded[i])
    ensures rest != [] ==> WellFormed(rest[0]) && pages + 1 <= 2 * Size(box) - 1
  {
    BudgetNonNegative(rest);
    if rest != [] {
      SizePositive(rest[0]);
      BudgetNonNegative(rest[1..]);
    }
    hide Tiles, NewestFirst, Size, WellFormed;
  }

  lemma NothingConfirmed(relay: set<Event>, store: set<Event>)
    ensures Confirmed(relay, [], {}, store)
  {
  }

  lemma StoredMore(relay: set<Event>, f: Filter, store: set<Event>, more: set<Event>)
    requires store <= more
    ensures Stored(relay, f, store) ==> Stored(relay, f, more)
  {
  }

  lemma EventsGrow(a: seq<Event>, b: seq<Event>)
    ensures EventSet(a) <= EventSet(a + b)
  {
  }

  lemma EventsIn(persisted: seq<Event>, more: seq<Event>)
    requires |more| <= |persisted| && persisted[|persisted| - |more|..] == more
    ensures EventSet(more) <= EventSet(persisted)
  {
    forall e | e in more ensures e in persisted { assert e in persisted[|persisted| - |more|..]; }
  }

  /** An unsaturated complete answer to an honest relay's filter holds everything, so what was stored now holds it. */
  lemma HonestStored(relay: set<Event>, f: Filter, answer: Answer, store: set<Event>)
    requires Honest(relay, f, answer) && EventSet(answer.events) <= store
    ensures answer.ending.Eose? && |answer.events| < PAGE_SIZE ==> Stored(relay, f, store)
  {
    forall e | e in answer.events ensures e in store { assert e in EventSet(answer.events); }
    hide EventSet;
  }

  lemma ConfirmStored(relay: set<Event>, yielded: seq<Filter>, saturated: set<Filter>, store: set<Event>, f: Filter)
    requires Confirmed(relay, yielded, saturated, store) && Stored(relay, f, store)
    ensures Confirmed(relay, yielded + [f], saturated, store)
  {
    hide Stored;
  }

  lemma ConfirmSaturated(relay: set<Event>, yielded: seq<Filter>, saturated: set<Filter>, store: set<Event>, f: Filter)
    requires Confirmed(relay, yielded, saturated, store) && SingleCell(f)
    ensures Confirmed(relay, yielded + [f], saturated + {f}, store)
  {
    hide Stored, SingleCell;
  }

  /** Counts the events of one answer and tracks the oldest. */
  method Drain(events: seq<Event>) returns (count: nat, oldest: Option<int>)
    ensures count == |events|
    ensures oldest.None? <==> events == []
    ensures oldest.Some? ==> (exists e :: e in events && e.createdAt == oldest.value) && forall e | e in events :: oldest.value <= e.createdAt
  {
    count, oldest := 0, None;
    for i := 0 to |events|
      invariant count == i
      invariant oldest.None? <==> i == 0
      invariant oldest.Some? ==> (exists e :: e in events[..i] && e.createdAt == oldest.value) && forall e | e in events[..i] :: oldest.value <= e.createdAt
    {
      var e := events[i];
      assert events[..i + 1] == events[..i] + [e];
      count := count + 1;
      if oldest.None? || e.createdAt < oldest.value {
        oldest := Some(e.createdAt);
        assert e in events[..i + 1];
      }
    }
    assert events[..|events|] == events;
  }

  lemma {:induction false} BudgetNonNegative(fs: seq<Filter>)
    requires forall i | 0 <= i < |fs| :: WellFormed(fs[i])
    ensures Budget(fs) >= 0
  {
    if fs != [] {
      SizePositive(fs[0]);
      BudgetNonNegative(fs[1..]);
    }
  }
}
