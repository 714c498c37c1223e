/** Which chunk indexes one relay batch asks for. */
module BatchSelection {
  import opened Basics

  /** `index` is `None` where the source reads past the end of the list. */
  datatype Selected = Selected(index: Option<nat>, wasUntried: bool)

  // ---- the order in which positions of one list are visited ----

  function UpFrom(i: nat, step: nat, length: nat): seq<nat>
    requires step > 0
    decreases length - i
  {
    if i >= length then [] else [i] + UpFrom(i + step, step, length)
  }

  /** Positions from `offset` upwards, then the ones skipped before it, for each offset in turn. */
  function Blocks(offset: nat, limit: nat, step: nat, length: nat): seq<nat>
    requires step > 0
    decreases limit - offset
  {
    if offset >= limit then []
    else UpFrom(offset, step, length) + UpFrom(offset % step, step, offset) + Blocks(offset + 1, limit, step, length)
  }

  function Positions(offset: nat, step: nat, length: nat): seq<nat>
    requires step > 0
  {
    Blocks(offset, offset + step, step, length)
  }

  function Item(available: seq<nat>, position: nat, wasUntried: bool): Selected {
    Selected(if position < |available| then Some(available[position]) else None, wasUntried)
  }

  function Items(available: seq<nat>, positions: seq<nat>, wasUntried: bool): (r: seq<Selected>)
    ensures |r| == |positions| && forall i | 0 <= i < |positions| :: r[i] == Item(available, positions[i], wasUntried)
  {
    seq(|positions|, i requires 0 <= i < |positions| => Item(available, positions[i], wasUntried))
  }

  function Take<T>(s: seq<T>, n: nat): seq<T> {
    if |s| <= n then s else s[..n]
  }

  /** The first `room` positions of the visiting order. */
  function FromGroup(available: seq<nat>, offset: nat, step: nat, room: nat, wasUntried: bool): seq<Selected>
    requires step > 0
  {
    if available == [] then [] else Items(available, Take(Positions(offset, step, |available|), room), wasUntried)
  }

  function BatchOf(batchSize: nat, untried: seq<nat>, inFlight: seq<nat>, step: nat, offset: nat): seq<Selected>
    requires step > 0
  {
    var first := FromGroup(untried, offset, step, batchSize, true);
    if |first| >= batchSize then first else first + FromGroup(inFlight, 0, 1, batchSize - |first|, false)
  }

  method GetBatchIndexes(batchSize: nat, untried: seq<nat>, inFlight: seq<nat>, step: nat, offset: nat) returns (selected: seq<Selected>)
    requires step > 0 && batchSize > 0
    ensures selected == BatchOf(batchSize, untried, inFlight, step, offset)
  {
    selected := [];
    if untried != [] {
      selected := SelectFrom(untried, offset, step, batchSize, true);
      if |selected| >= batchSize { return; }
    }
    if inFlight != [] {
      var more := SelectFrom(inFlight, 0, 1, batchSize - |selected|, false);
      selected := selected + more;
    }
  }

  /** The stepping loops over one non-empty list, stopping as soon as `room` entries are selected. */
  method SelectFrom(available: seq<nat>, offset: nat, step: nat, room: nat, wasUntried: bool) returns (selected: seq<Selected>)
    requires step > 0 && room > 0 && available != []
    ensures selected == FromGroup(available, offset, step, room, wasUntried)
  {
    hide UpFrom, Blocks, Items;
    selected := [];
    ghost var all := Positions(offset, step, |available|);
    ghost var seen: seq<nat> := [];
    var limit := offset + step;
    var current := offset;
    while |selected| < room && current < limit
      invariant offset <= current <= limit
      invariant selected == Items(available, seen, wasUntried)
      invariant Prefix(all, seen, room, Blocks(current, limit, step, |available|))
      decreases limit - current
    {
      ghost var later := Blocks(current + 1, limit, step, |available|);
      ghost var wrapped := UpFrom(current % step, step, current);
      BlocksStep(current, limit, step, |available|);
      selected, seen := PushRun(available, selected, current, step, |available|, room, wasUntried, all, seen, wrapped + later);
      if |selected| < room {
        selected, seen := PushRun(available, selected, current % step, step, current, room, wasUntried, all, seen, later);
      }
      current := current + 1;
    }
    NoBlocks(current, limit, step, |available|);
    PrefixIsTake(available, all, seen, room, wasUntried);
  }

  lemma NoBlocks(offset: nat, limit: nat, step: nat, length: nat)
    requires step > 0
    ensures offset >= limit ==> Blocks(offset, limit, step, length) == []
  {
  }

  /** `seen` is the beginning of the visiting order; `rest` is what follows while there is room. */
  ghost predicate Prefix(all: seq<nat>, seen: seq<nat>, room: nat, rest: seq<nat>) {
    |seen| <= room && seen <= all && (|seen| < room ==> all == seen + rest)
  }

  /** Pushes `start`, `start + step`, ... below `end`, until the batch is full. */
  method PushRun(available: seq<nat>, already: seq<Selected>, start: nat, step: nat, end: nat, room: nat, wasUntried: bool,
                 ghost all: seq<nat>, ghost seen: seq<nat>, ghost rest: seq<nat>)
    returns (selected: seq<Selected>, ghost more: seq<nat>)
    requires step > 0 && |seen| < room && already == Items(available, seen, wasUntried)
    requires Prefix(all, seen, room, UpFrom(start, step, end) + rest)
    ensures selected == Items(available, more, wasUntried) && Prefix(all, more, room, rest)
  {
    selected, more := already, seen;
    var index := start;
    while index < end
      invariant |more| < room && selected == Items(available, more, wasUntried)
      invariant all == more + (UpFrom(index, step, end) + rest)
      decreases end - index
    {
      Advance(all, more, index, step, end, rest);
      selected := selected + [Item(available, index, wasUntried)];
      more := more + [index];
      if |selected| >= room { return; }
      index := index + step;
    }
    assert UpFrom(index, step, end) + rest == rest;
  }

  lemma Advance(all: seq<nat>, seen: seq<nat>, index: nat, step: nat, length: nat, rest: seq<nat>)
    requires step > 0 && index < length
    requires all == seen + (UpFrom(index, step, length) + rest)
    ensures all == seen + [index] + (UpFrom(index + step, step, length) + rest)
  {
    Shift(seen, index, UpFrom(index + step, step, length), rest);
  }

  lemma Shift(seen: seq<nat>, x: nat, tail: seq<nat>, rest: seq<nat>)
    ensures seen + (([x] + tail) + rest) == seen + [x] + (tail + rest)
  {
  }

  lemma BlocksStep(offset: nat, limit: nat, step: nat, length: nat)
    requires step > 0 && offset < limit
    ensures Blocks(offset, limit, step, length)
         == UpFrom(offset, step, length) + (UpFrom(offset % step, step, offset) + Blocks(offset + 1, limit, step, length))
  {
  }

  lemma PrefixIsTake(available: seq<nat>, all: seq<nat>, seen: seq<nat>, room: nat, wasUntried: bool)
    requires Prefix(all, seen, room, [])
    ensures Items(available, seen, wasUntried) == Items(available, Take(all, room), wasUntried)
  {
    assert all + [] == all && seen + [] == seen;
  }

  // ---- the selection theorem ----

  /** Remainder of a position by repeated subtraction. */
  function Residue(p: nat, step: nat): (r: nat)
    requires step > 0
    ensures r < step
  {
    if p < step then p else Residue(p - step, step)
  }

  lemma {:induction false} UpFromMember(i: nat, step: nat, length: nat, p: nat)
    requires step > 0
    ensures p in UpFrom(i, step, length) <==> i <= p < length && Residue(p, step) == Residue(i, step)
    decreases length - i
  {
    if i < length {
      UpFromMember(i + step, step, length, p);
      assert Residue(i + step, step) == Residue(i, step);
      if i < p < i + step { ResidueApart(i, p, step); }
    }
  }

  lemma {:induction false} ResidueApart(i: nat, p: nat, step: nat)
    requires step > 0 && i < p < i + step
    ensures Residue(i, step) != Residue(p, step)
  {
    if i >= step { ResidueApart(i - step, p - step, step); }
  }

  lemma {:induction false} UpFromDistinct(i: nat, step: nat, length: nat)
    requires step > 0
    ensures NoDup(UpFrom(i, step, length)) && forall p: nat | p in UpFrom(i, step, length) :: i <= p < length
    decreases length - i
  {
    if i < length {
      var rest := UpFrom(i + step, step, length);
      UpFromDistinct(i + step, step, length);
      NoDupConcat([i], rest);
    }
  }

  /** With an offset below the step, at most one position lies before it in its block. */
  lemma WrapIsOne(current: nat, step: nat)
    requires step > 0 && current < 2 * step
    ensures UpFrom(current % step, step, current) == if current < step then [] else [current - step]
  {
    if current >= step {
      assert current % step == current - step;
      assert UpFrom(current, step, current) == [];
    }
  }

  /** The block of `current` holds the positions of its residue, and the wrapped one. */
  ghost predicate InBlock(current: nat, step: nat, length: nat, p: nat)
    requires step > 0
  {
    (current <= p < length && Residue(p, step) == Residue(current, step)) || (step <= current && p == current - step)
  }

  lemma {:induction false} BlocksMember(current: nat, limit: nat, step: nat, length: nat, p: nat)
    requires step > 0 && limit <= 2 * step
    ensures p in Blocks(current, limit, step, length) <==> exists c | current <= c < limit :: InBlock(c, step, length, p)
    decreases limit - current
  {
    if current < limit {
      BlocksMember(current + 1, limit, step, length, p);
      UpFromMember(current, step, length, p);
      WrapIsOne(current, step);
      assert p in UpFrom(current, step, length) + UpFrom(current % step, step, current) <==> InBlock(current, step, length, p);
      BlocksStep(current, limit, step, length);
      hide Blocks, UpFrom, InBlock;
      if c :| current + 1 <= c < limit && InBlock(c, step, length, p) { assert current <= c; }
    }
  }

  lemma {:induction false} BlocksDistinct(current: nat, limit: nat, step: nat, length: nat)
    requires step > 0 && limit <= 2 * step && limit <= current + step
    ensures NoDup(Blocks(current, limit, step, length))
    decreases limit - current
  {
    if current < limit {
      var head := UpFrom(current, step, length) + UpFrom(current % step, step, current);
      var tail := Blocks(current + 1, limit, step, length);
      BlocksDistinct(current + 1, limit, step, length);
      UpFromDistinct(current, step, length);
      WrapIsOne(current, step);
      NoDupConcat(UpFrom(current, step, length), UpFrom(current % step, step, current));
      forall p: nat | p in head ensures p !in tail {
        UpFromMember(current, step, length, p);
        BlocksMember(current + 1, limit, step, length, p);
        forall c | current < c < limit ensures !InBlock(c, step, length, p) {
          ResidueApart(current, c, step);
          assert current >= step ==> Residue(current, step) == Residue(current - step, step);
          assert c >= step ==> Residue(c, step) == Residue(c - step, step);
        }
      }
      NoDupConcat(head, tail);
    }
  }

  /** For an offset inside the list, every position is visited exactly once and no other. */
  lemma PositionsPermute(offset: nat, step: nat, length: nat)
    requires offset < step && offset <= length
    ensures var ps := Positions(offset, step, length);
            NoDup(ps) && |ps| == length && forall p: nat :: p in ps <==> p < length
  {
    var ps := Positions(offset, step, length);
    BlocksDistinct(offset, offset + step, step, length);
    forall p: nat ensures p in ps <==> p < length {
      BlocksMember(offset, offset + step, step, length, p);
      if p < length {
        var r := Residue(p, step);
        ResidueBelow(p, step);
        var c := if offset <= r then r else r + step;
        assert Residue(r + step, step) == Residue(r, step) == r;
        if c > p { assert p < step; }
        assert InBlock(c, step, length, p);
      }
    }
    CountDistinct(ps, length);
  }

  lemma {:induction false} ResidueBelow(p: nat, step: nat)
    requires step > 0
    ensures Residue(p, step) <= p && (p >= step ==> Residue(p, step) + step <= p) && (p < step ==> Residue(p, step) == p)
  {
    if p >= step { ResidueBelow(p - step, step); }
  }

  lemma {:induction false} CountDistinct(ps: seq<nat>, n: nat)
    requires NoDup(ps) && forall p: nat :: p in ps <==> p < n
    ensures |ps| == n
    decreases n
  {
    if n == 0 {
      HasElement(ps);
    } else {
      assert n - 1 in ps;
      var i :| 0 <= i < |ps| && ps[i] == n - 1;
      var rest := ps[..i] + ps[i + 1..];
      forall p: nat ensures p in rest <==> p < n - 1 {
        if p in rest {
          var j :| 0 <= j < |rest| && rest[j] == p;
          assert p == if j < i then ps[j] else ps[j + 1];
          assert p in ps;
        }
        if p < n - 1 {
          assert p in ps;
          var j :| 0 <= j < |ps| && ps[j] == p;
          assert p == if j < i then rest[j] else rest[j - 1];
        }
      }
      CountDistinct(rest, n - 1);
    }
  }

  /** For an offset at or past the end, the order is simply 0, 1, 2, ... up to the offset. */
  lemma PositionsPastEnd(offset: nat, step: nat, length: nat)
    requires length <= offset < step
    ensures |Positions(offset, step, length)| == offset
    ensures forall i | 0 <= i < offset :: Positions(offset, step, length)[i] == i
  {
    BlocksPastEnd(offset, offset, step, length);
  }

  lemma {:induction false} BlocksPastEnd(current: nat, offset: nat, step: nat, length: nat)
    requires length <= offset <= current <= offset + step && offset < step
    ensures var bs := Blocks(current, offset + step, step, length);
            var first := if current < step then 0 else current - step;
            |bs| == offset - first && forall i | 0 <= i < |bs| :: bs[i] == first + i
    decreases offset + step - current
  {
    if current < offset + step {
      BlocksPastEnd(current + 1, offset, step, length);
      WrapIsOne(current, step);
    }
  }

  /** Real entries of a selection. */
  ghost predicate AllReal(selected: seq<Selected>) {
    forall i | 0 <= i < |selected| :: selected[i].index.Some?
  }

  lemma FromGroupReal(available: seq<nat>, offset: nat, step: nat, room: nat, wasUntried: bool)
    requires NoDup(available) && offset < step && offset <= |available|
    ensures var r := FromGroup(available, offset, step, room, wasUntried);
            && |r| == (if room < |available| then room else |available|)
            && (forall i | 0 <= i < |r| :: r[i].wasUntried == wasUntried && r[i].index.Some? && r[i].index.value in available)
            && forall i, j | 0 <= i < j < |r| :: r[i].index != r[j].index
  {
    if available != [] {
      PositionsPermute(offset, step, |available|);
      var ps := Positions(offset, step, |available|);
      var r := FromGroup(available, offset, step, room, wasUntried);
      forall i | 0 <= i < |r| ensures ps[i] < |available| && r[i] == Selected(Some(available[ps[i]]), wasUntried) {
        assert ps[i] in ps;
      }
    }
  }

  /** An in-flight entry stands after every untried index. */
  ghost predicate UntriedFirst(r: seq<Selected>, untried: seq<nat>) {
    forall i | 0 <= i < |r| && !r[i].wasUntried :: |untried| <= i && forall x | x in untried :: Selected(Some(x), true) in r[..i]
  }

  ghost predicate FromLists(r: seq<Selected>, untried: seq<nat>, inFlight: seq<nat>) {
    forall i | 0 <= i < |r| :: r[i].index.Some? && r[i].index.value in (if r[i].wasUntried then untried else inFlight)
  }

  ghost predicate DistinctIndexes(r: seq<Selected>) {
    forall i, j | 0 <= i < j < |r| :: r[i].index != r[j].index
  }

  lemma {:induction false} UpFromAt(i: nat, step: nat, length: nat, k: nat)
    requires step > 0 && i + k * step < length
    ensures k < |UpFrom(i, step, length)| && UpFrom(i, step, length)[k] == i + k * step
    decreases k
  {
    if k > 0 {
      assert (i + step) + (k - 1) * step == i + k * step;
      UpFromAt(i + step, step, length, k - 1);
    }
  }

  /**
   * Relays spread out: the batch of the relay at this offset begins with the entries at the offset and every step after it, so
   * that relays with different offsets begin with different entries.
   */
  lemma BatchBegins(batchSize: nat, untried: seq<nat>, inFlight: seq<nat>, step: nat, offset: nat, k: nat)
    requires offset < step && k < batchSize && offset + k * step < |untried|
    ensures var r := BatchOf(batchSize, untried, inFlight, step, offset);
            k < |r| && r[k] == Selected(Some(untried[offset + k * step]), true)
  {
    UpFromAt(offset, step, |untried|, k);
    var positions := Positions(offset, step, |untried|);
    assert k < |positions| && positions[k] == offset + k * step by { BlocksStep(offset, offset + step, step, |untried|); }
    hide Positions, UpFrom;
    var first := FromGroup(untried, offset, step, batchSize, true);
    assert k < |first| && first[k] == Item(untried, positions[k], true);
    hide FromGroup;
  }

  /**
   * The selection theorem: with the offset inside the untried list the batch has no duplicates, comes from the
   * two lists, is as large as it can be, and takes an in-flight index only after all untried ones.
   */
  lemma SelectionTheorem(batchSize: nat, untried: seq<nat>, inFlight: seq<nat>, step: nat, offset: nat)
    requires batchSize > 0 && offset < step && offset <= |untried|
    requires NoDup(untried) && NoDup(inFlight) && forall x | x in untried :: x !in inFlight
    ensures var r := BatchOf(batchSize, untried, inFlight, step, offset);
            && |r| == (if batchSize < |untried| + |inFlight| then batchSize else |untried| + |inFlight|)
            && FromLists(r, untried, inFlight) && DistinctIndexes(r) && UntriedFirst(r, untried)
  {
    hide FromGroup;
    FromGroupReal(untried, offset, step, batchSize, true);
    var first := FromGroup(untried, offset, step, batchSize, true);
    var r := BatchOf(batchSize, untried, inFlight, step, offset);
    if |first| < batchSize {
      FromGroupReal(inFlight, 0, 1, batchSize - |first|, false);
      forall x | x in untried ensures Selected(Some(x), true) in first {
        AllVisited(untried, offset, step, batchSize, x);
      }
      forall i | |first| <= i < |r| ensures forall x | x in untried :: Selected(Some(x), true) in r[..i] {
        assert r[..i] == first + r[|first|..i];
      }
    }
  }

  lemma AllVisited(available: seq<nat>, offset: nat, step: nat, room: nat, x: nat)
    requires x in available && |available| <= room && offset < step && offset <= |available|
    ensures Selected(Some(x), true) in FromGroup(available, offset, step, room, true)
  {
    var p :| 0 <= p < |available| && available[p] == x;
    PositionsPermute(offset, step, |available|);
    var ps := Positions(offset, step, |available|);
    assert p in ps;
    var j :| 0 <= j < |ps| && ps[j] == p;
    assert FromGroup(available, offset, step, room, true)[j] == Selected(Some(x), true);
  }

  /** Past the end of the untried list an undefined entry is selected exactly when there is room for it, after every real one. */
  lemma UndefinedExactly(batchSize: nat, untried: seq<nat>, step: nat, offset: nat)
    requires batchSize > 0 && offset < step && untried != [] && NoDup(untried)
    ensures var r := FromGroup(untried, offset, step, batchSize, true);
            && (!AllReal(r) <==> |untried| < offset && |untried| < batchSize)
            && (|untried| < offset ==> forall i | 0 <= i < |r| :: r[i].index == if i < |untried| then Some(untried[i]) else None)
  {
    var r := FromGroup(untried, offset, step, batchSize, true);
    if offset <= |untried| {
      FromGroupReal(untried, offset, step, batchSize, true);
    } else {
      PositionsPastEnd(offset, step, |untried|);
      if |untried| < batchSize { assert r[|untried|].index == None; }
    }
  }

  /** One untried index, offset 2 of 3: the second entry is undefined. */
  lemma UndefinedWitness(x: nat)
    ensures BatchOf(2, [x], [], 3, 2) == [Selected(Some(x), true), Selected(None, true)]
  {
    PositionsPastEnd(2, 3, 1);
  }
}
