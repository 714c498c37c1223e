/** Cutting a downloaded file into stored chunks when its size is only hinted at. */
module Blossom {
  import opened Basics
  import opened Chunks

  /** One row of the chunk store; rows of one file are keyed by chunk index. */
  datatype Stored = Stored(bytes: seq<Byte>, total: nat)

  /** How a response body ends: read to the end, a read fails, or the download is aborted. */
  datatype Ending = Done | Broken | Aborted

  datatype Body = Body(parts: seq<seq<Byte>>, ending: Ending)

  /** What the second request for the same file brings. */
  datatype Reply = NoReply | ReplyAborted | Reply(body: Body)

  datatype Consumed = Consumed(byteLength: nat, digest: nat, totalChunks: nat)

  /** Items on the consumer's queue; the consumer stops at the first `Failed`. */
  datatype Item = Progress(count: nat, total: nat) | Complete(total: nat, byteLength: nat) | Failed

  ghost predicate Clean(queue: seq<Item>) { Failed !in queue }

  /** The queue as far as the consumer reads it. */
  ghost function Seen(queue: seq<Item>): seq<Item> {
    if queue == [] || queue[0].Failed? then [] else [queue[0]] + Seen(queue[1..])
  }

  /** Sizes offered by the response, by the earlier HEAD answer and by the manifest, in this order of trust. */
  function Provisional(get: Option<nat>, head: Option<nat>, manifest: Option<nat>): Option<nat> {
    var size := if get.Some? then get else if head.Some? then head else manifest;
    if size.None? then None else Some(CountFor(size.value))
  }

  /** The first size that is offered counts, in this order: by the response, by the HEAD answer, by the manifest. */
  lemma ProvisionalIs(get: Option<nat>, head: Option<nat>, manifest: Option<nat>)
    ensures get.Some? ==> Provisional(get, head, manifest) == Some(ChunksFor(get.value))
    ensures get.None? && head.Some? ==> Provisional(get, head, manifest) == Some(ChunksFor(head.value))
    ensures get.None? && head.None? && manifest.Some? ==> Provisional(get, head, manifest) == Some(ChunksFor(manifest.value))
    ensures get.None? && head.None? && manifest.None? ==> Provisional(get, head, manifest) == None
  {
  }

  /** The least number of chunks of 51000 bytes that hold the size, and at least one. */
  function ChunksFor(size: nat): (n: nat)
    ensures n >= 1 && size <= n * 51000 && forall m: nat | m >= 1 && size <= m * 51000 :: n <= m
  {
    if size == 0 then 1 else (size - 1) / 51000 + 1
  }

  // ---- what one pass over a body stores ----

  predicate IsFull(bytes: seq<Byte>, i: nat) { (i + 1) * CHUNK_BYTES <= |bytes| }

  function FullChunk(bytes: seq<Byte>, i: nat): seq<Byte>
    requires IsFull(bytes, i)
  {
    bytes[i * CHUNK_BYTES..(i + 1) * CHUNK_BYTES]
  }

  /** The first `n` full chunks, as far as the expected total lets them. */
  function Full(bytes: seq<Byte>, n: nat, total: nat): map<nat, Stored> {
    map i: nat | i < n && i < total && IsFull(bytes, i) :: Stored(FullChunk(bytes, i), total)
  }

  /** What is stored on top of `base` after the first `n` full chunks. */
  ghost function Held(base: map<nat, Stored>, received: seq<Byte>, n: nat, total: Option<nat>): map<nat, Stored> {
    if total.None? then base else base + Full(received, n, total.value)
  }

  /** A whole body: full chunks below the expected total, and a partial one only where the last is expected. */
  function Rows(bytes: seq<Byte>, total: nat): map<nat, Stored> {
    CanonicalCount(bytes);
    map i: nat | i < CountFor(|bytes|) && i < total && (|Canonical(bytes)[i]| == CHUNK_BYTES || i == total - 1)
      :: Stored(Canonical(bytes)[i], total)
  }

  function Pass(bytes: seq<Byte>, total: Option<nat>): map<nat, Stored> {
    if total.None? then map[] else Rows(bytes, total.value)
  }

  lemma RowsAreFull(bytes: seq<Byte>, n: nat, total: nat)
    requires n * CHUNK_BYTES <= |bytes| < (n + 1) * CHUNK_BYTES
    ensures var rest := bytes[n * CHUNK_BYTES..];
            Rows(bytes, total) == if (rest != [] || bytes == []) && n == total - 1 then Full(bytes, n, total)[n := Stored(rest, total)]
                                  else Full(bytes, n, total)
  {
    CanonicalCount(bytes);
    forall i: nat | i < CountFor(|bytes|)
      ensures i < n ==> IsFull(bytes, i) && Canonical(bytes)[i] == FullChunk(bytes, i) && |Canonical(bytes)[i]| == CHUNK_BYTES
      ensures i >= n ==> i == n && Canonical(bytes)[i] == bytes[n * CHUNK_BYTES..] && |Canonical(bytes)[i]| < CHUNK_BYTES
    {
      WhichChunk(bytes, n, i);
    }
    CountIs(bytes, n);
    hide Canonical, CountFor, IsFull, FullChunk;
  }

  lemma WhichChunk(bytes: seq<Byte>, n: nat, i: nat)
    requires n * CHUNK_BYTES <= |bytes| < (n + 1) * CHUNK_BYTES && i < CountFor(|bytes|)
    ensures i < |Canonical(bytes)|
    ensures i < n ==> IsFull(bytes, i) && Canonical(bytes)[i] == FullChunk(bytes, i) && |Canonical(bytes)[i]| == CHUNK_BYTES
    ensures i >= n ==> i == n && Canonical(bytes)[i] == bytes[n * CHUNK_BYTES..] && |Canonical(bytes)[i]| < CHUNK_BYTES
  {
    CanonicalAt(bytes, i);
    hide Canonical;
  }

  lemma CountIs(bytes: seq<Byte>, n: nat)
    requires n * CHUNK_BYTES <= |bytes| < (n + 1) * CHUNK_BYTES
    ensures CountFor(|bytes|) == if bytes[n * CHUNK_BYTES..] != [] || bytes == [] then n + 1 else n
  {
  }

  /** Every row that is ever stored passes the local check: an index below the total, and full unless it is the last. */
  lemma RowsPassLocalCheck(bytes: seq<Byte>, total: nat, i: nat)
    requires i in Rows(bytes, total)
    ensures var row := Rows(bytes, total)[i];
            && i < row.total == total && |row.bytes| <= CHUNK_BYTES && (i < row.total - 1 ==> |row.bytes| == CHUNK_BYTES)
  {
    CanonicalAt(bytes, i);
  }

  function InOrder(rows: map<nat, Stored>, n: nat): seq<seq<Byte>>
    requires forall i: nat | i < n :: i in rows
  {
    if n == 0 then [] else InOrder(rows, n - 1) + [rows[n - 1].bytes]
  }

  lemma {:induction false} InOrderIs(rows: map<nat, Stored>, n: nat, parts: seq<seq<Byte>>)
    requires n <= |parts| && forall i: nat | i < n :: i in rows && rows[i].bytes == parts[i]
    ensures InOrder(rows, n) == parts[..n]
  {
    if n > 0 { InOrderIs(rows, n - 1, parts); }
  }

  /** With the true total, the rows are exactly the canonical chunks, and joined in order they are the file. */
  lemma WholeFile(bytes: seq<Byte>)
    ensures var (rows, n) := (Rows(bytes, CountFor(|bytes|)), CountFor(|bytes|));
            && (forall i: nat :: i in rows <==> i < n)
            && (forall i: nat | i < n :: rows[i].total == n)
            && InOrder(rows, n) == Canonical(bytes) && Flat(InOrder(rows, n)) == bytes
  {
    CanonicalCount(bytes);
    CanonicalFlat(bytes);
    var n := CountFor(|bytes|);
    hide Canonical, CountFor, Flat, InOrder;
    forall i: nat | i < n ensures |Canonical(bytes)[i]| == CHUNK_BYTES || i == n - 1 { FullOrLast(bytes, i); }
    InOrderIs(Rows(bytes, n), n, Canonical(bytes));
    assert Canonical(bytes)[..n] == Canonical(bytes);
  }

  lemma FullOrLast(bytes: seq<Byte>, i: nat)
    requires i < CountFor(|bytes|)
    ensures i < |Canonical(bytes)| && (|Canonical(bytes)[i]| == CHUNK_BYTES || i == CountFor(|bytes|) - 1)
  {
    CanonicalAt(bytes, i);
  }

  /** A smaller or larger expected total never gives the rows of the file. */
  lemma WrongTotalNeverWhole(bytes: seq<Byte>, total: nat)
    requires total != CountFor(|bytes|)
    ensures Rows(bytes, total) != Rows(bytes, CountFor(|bytes|))
  {
    WholeFile(bytes);
    var n := CountFor(|bytes|);
    assert n > 0 && 0 in Rows(bytes, n) && Rows(bytes, n)[0].total == n;
    assert 0 in Rows(bytes, total) ==> Rows(bytes, total)[0].total == total;
  }

  // ---- which bytes a download accepts ----

  /**
   * The bytes of the file, if the download succeeds: of the first body when its hash matches and the expected total was
   * right, else of a second body with the same hash, total and length.
   */
  function Accepted(first: Body, expected: Option<nat>, retry: Reply, hash: seq<Byte> -> nat, root: nat): Option<seq<Byte>> {
    var bytes := Flat(first.parts);
    if first.ending != Done || hash(bytes) != root then None
    else if expected == Some(CountFor(|bytes|)) then Some(bytes)
    else if !retry.Reply? || retry.body.ending != Done then None
    else
      var again := Flat(retry.body.parts);
      if hash(again) != root || CountFor(|again|) != CountFor(|bytes|) || |again| != |bytes| then None else Some(again)
  }

  /** Whatever is accepted has the hash that was asked for; and right or wrong hints are accepted alike if the server repeats itself. */
  lemma AcceptedMatches(first: Body, expected: Option<nat>, retry: Reply, hash: seq<Byte> -> nat, root: nat)
    ensures Accepted(first, expected, retry, hash, root).Some? ==> hash(Accepted(first, expected, retry, hash, root).value) == root
    ensures first.ending == Done && retry == Reply(first) ==>
              Accepted(first, expected, retry, hash, root) == if hash(Flat(first.parts)) == root then Some(Flat(first.parts)) else None
  {
  }

  /**
   * Exactly which bytes are accepted: a body that was read to its end and has the hash, if its number of chunks was expected;
   * else those of a second answer that was read to its end, has the hash and the same length. Never anything when the first
   * body is no good.
   */
  lemma AcceptedIs(first: Body, expected: Option<nat>, retry: Reply, hash: seq<Byte> -> nat, root: nat, bytes: seq<Byte>)
    ensures Accepted(first, expected, retry, hash, root) == Some(bytes) <==>
              && first.ending == Done && hash(Flat(first.parts)) == root
              && if expected == Some(ChunksFor(|Flat(first.parts)|)) then bytes == Flat(first.parts)
                 else retry.Reply? && retry.body.ending == Done && bytes == Flat(retry.body.parts)
                      && hash(bytes) == root && |bytes| == |Flat(first.parts)|
  {
    hide Flat;
  }

  ghost predicate AbortedRun(first: Body, expected: Option<nat>, retry: Reply, hash: seq<Byte> -> nat, root: nat) {
    || first.ending == Aborted
    || (first.ending == Done && hash(Flat(first.parts)) == root && expected != Some(CountFor(|Flat(first.parts)|))
        && (retry.ReplyAborted? || (retry.Reply? && retry.body.ending == Aborted)))
  }

  lemma SeenClean(queue: seq<Item>)
    ensures Clean(queue) ==> Seen(queue) == queue
  {
    if queue != [] {
      assert Clean(queue) ==> Clean(queue[1..]);
      SeenClean(queue[1..]);
    }
  }

  lemma {:induction false} SeenPart(queue: seq<Item>, item: Item)
    ensures Seen(queue + [item]) == if Clean(queue) && !item.Failed? then queue + [item] else Seen(queue)
    ensures forall x :: x in Seen(queue) ==> x in queue
  {
    if queue == [] {
      assert queue + [item] == [item];
      assert [item][1..] == [];
    } else {
      assert (queue + [item])[1..] == queue[1..] + [item];
      SeenPart(queue[1..], item);
      assert queue == [queue[0]] + queue[1..];
    }
  }

  datatype Result = Finished | Errored | Stopped

  class Download {
    const root: nat
    const hash: seq<Byte> -> nat
    // Whether the n-th write to the chunk store succeeds.
    const disk: nat -> bool
    var stored: map<nat, Stored>
    var queue: seq<Item>
    var writes: nat

    constructor (root: nat, hash: seq<Byte> -> nat, disk: nat -> bool)
      ensures this.root == root && this.hash == hash && this.disk == disk
      ensures stored == map[] && queue == [] && writes == 0
    {
      this.root, this.hash, this.disk := root, hash, disk;
      stored, queue, writes := map[], [], 0;
    }

    /** Everything an operation that reports no completion may do to the queue. */
    twostate predicate Grows()
      reads this
    {
      && old(queue) <= queue && old(writes) <= writes
      && (forall k | |old(queue)| <= k < |queue| :: !queue[k].Complete?)
      && ((forall n :: disk(n)) && Clean(old(queue)) ==> Clean(queue))
    }

    method SaveChunk(index: nat, bytes: seq<Byte>, count: nat, total: nat)
      modifies this
      ensures Grows()
      ensures queue == old(queue) + [if disk(old(writes)) then Progress(count, total) else Failed]
      ensures Clean(queue) ==> Clean(old(queue)) && stored == old(stored)[index := Stored(bytes, total)]
    {
      if disk(writes) {
        stored := stored[index := Stored(bytes, total)];
        queue := queue + [Progress(count, total)];
      } else {
        queue := queue + [Failed];
        assert Failed in queue;
      }
      writes := writes + 1;
    }

    method DiscardChunks()
      modifies this
      ensures Grows()
      ensures Clean(queue) ==> Clean(old(queue)) && stored == map[]
      ensures (forall n :: disk(n)) ==> stored == map[]
    {
      if disk(writes) {
        stored := map[];
      } else {
        queue := queue + [Failed];
        assert Failed in queue;
      }
      writes := writes + 1;
    }

    /** Emits every full chunk that the buffer holds. */
    method EmitFull(input: seq<Byte>, first: nat, total: Option<nat>, ghost received: seq<Byte>, ghost base: map<nat, Stored>)
      returns (buffer: seq<Byte>, chunkIndex: nat)
      requires first * CHUNK_BYTES <= |received| && input == received[first * CHUNK_BYTES..]
      requires Clean(queue) ==> stored == Held(base, received, first, total)
      modifies this
      ensures chunkIndex * CHUNK_BYTES <= |received| < (chunkIndex + 1) * CHUNK_BYTES
      ensures buffer == received[chunkIndex * CHUNK_BYTES..]
      ensures Grows()
      ensures Clean(queue) ==> Clean(old(queue))
      ensures Clean(queue) ==> stored == Held(base, received, chunkIndex, total)
    {
      hide Held, Full, FullChunk, Clean;
      buffer, chunkIndex := input, first;
      while |buffer| >= CHUNK_BYTES
        invariant chunkIndex * CHUNK_BYTES <= |received| && buffer == received[chunkIndex * CHUNK_BYTES..]
        invariant Grows()
        invariant Clean(queue) ==> Clean(old(queue))
        invariant Clean(queue) ==> stored == Held(base, received, chunkIndex, total)
        decreases |buffer|
      {
        HeldStep(base, received, chunkIndex, total);
        var chunk := buffer[..CHUNK_BYTES];
        buffer := buffer[CHUNK_BYTES..];
        if total.Some? && chunkIndex < total.value { SaveChunk(chunkIndex, chunk, chunkIndex + 1, total.value); }
        chunkIndex := chunkIndex + 1;
      }
    }

    /** Reads a body to its end, cutting it into chunks and hashing it. */
    method ConsumeBody(body: Body, total: Option<nat>) returns (r: Option<Consumed>)
      modifies this
      ensures r == if body.ending == Done then Some(Consumed(|Flat(body.parts)|, hash(Flat(body.parts)), CountFor(|Flat(body.parts)|))) else None
      ensures Grows()
      ensures Clean(queue) ==> Clean(old(queue))
      ensures Clean(queue) && r.Some? ==> stored == old(stored) + Pass(Flat(body.parts), total)
    {
      var buffer: seq<Byte>, chunkIndex: nat, received: seq<Byte> := [], 0, [];
      HeldNothing(stored, total);
      assert Flat(body.parts[..0]) == [];
      hide Held, Pass, Full, Flat, Rows, CountFor, Clean;
      var k := 0;
      while k < |body.parts|
        invariant 0 <= k <= |body.parts| && received == Flat(body.parts[..k])
        invariant chunkIndex * CHUNK_BYTES <= |received| < (chunkIndex + 1) * CHUNK_BYTES
        invariant buffer == received[chunkIndex * CHUNK_BYTES..]
        invariant Grows()
        invariant Clean(queue) ==> Clean(old(queue))
        invariant Clean(queue) ==> stored == Held(old(stored), received, chunkIndex, total)
      {
        var value := body.parts[k];
        assert body.parts[..k + 1] == body.parts[..k] + [value];
        FlatSnoc(body.parts[..k], value);
        HeldExtends(old(stored), received, value, chunkIndex, total);
        received := received + value;
        buffer := buffer + value;
        buffer, chunkIndex := EmitFull(buffer, chunkIndex, total, received, old(stored));
        k := k + 1;
      }
      assert body.parts[..k] == body.parts;
      if body.ending != Done { return None; }
      HeldAll(old(stored), received, chunkIndex, total);
      if |buffer| > 0 || |received| == 0 {
        if total.Some? && chunkIndex == total.value - 1 {
          SaveChunk(chunkIndex, buffer, chunkIndex + 1, total.value);
        }
      }
      r := Some(Consumed(|received|, hash(received), CountFor(|received|)));
    }

    /** First pass under the hinted total; if that was wrong, discard and replay with the observed one. */
    method DownloadResponse(first: Body, expected: Option<nat>, retry: Reply) returns (r: Result)
      requires stored == map[]
      modifies this
      ensures r == (if Accepted(first, expected, retry, hash, root).Some? then Finished
                    else if AbortedRun(first, expected, retry, hash, root) then Stopped else Errored)
      ensures Clean(queue) ==> Clean(old(queue))
      ensures r != Finished ==> Grows()
      ensures r == Finished ==>
                var bytes := Accepted(first, expected, retry, hash, root).value;
                && queue != [] && queue[|queue| - 1] == Complete(CountFor(|bytes|), |bytes|)
                && old(queue) <= queue[..|queue| - 1]
                && (forall k | |old(queue)| <= k < |queue| - 1 :: !queue[k].Complete?)
                && (Clean(queue) ==> stored == Rows(bytes, CountFor(|bytes|)))
                && ((forall n :: disk(n)) && Clean(old(queue)) ==> Clean(queue))
    {
      hide Rows, CountFor, Flat;
      var one := ConsumeBody(first, expected);
      if one.None? { return if first.ending == Aborted then Stopped else Errored; }
      if one.value.digest != root { return Errored; }
      if expected == Some(one.value.totalChunks) {
        queue := queue + [Complete(one.value.totalChunks, one.value.byteLength)];
        return Finished;
      }
      if expected.Some? { DiscardChunks(); }
      match retry {
        case NoReply => { return Errored; }
        case ReplyAborted => { return Stopped; }
        case Reply(body) => {
          var two := ConsumeBody(body, Some(one.value.totalChunks));
          if two.None? { return if body.ending == Aborted then Stopped else Errored; }
          if two.value.digest != root || two.value.totalChunks != one.value.totalChunks || two.value.byteLength != one.value.byteLength {
            return Errored;
          }
          queue := queue + [Complete(two.value.totalChunks, two.value.byteLength)];
          return Finished;
        }
      }
    }

    /**
     * A whole download. If the consumer ever sees 100%, the store holds exactly the canonical chunks of accepted bytes
     * with their true total. Unless a write fails, it sees 100% exactly when some bytes are accepted, and an error leaves no chunk.
     */
    method Run(first: Body, get: Option<nat>, head: Option<nat>, manifest: Option<nat>, retry: Reply) returns (r: Result)
      requires stored == map[] && queue == []
      modifies this
      ensures var accepted := Accepted(first, Provisional(get, head, manifest), retry, hash, root);
              && (Reported(queue) ==>
                   && accepted.Some? && stored == Rows(accepted.value, CountFor(|accepted.value|))
                   && queue[|queue| - 1] == Complete(CountFor(|accepted.value|), |accepted.value|) && Seen(queue) == queue)
              && ((forall n :: disk(n)) ==> (accepted.Some? <==> Reported(queue)) && (r == Errored ==> stored == map[]))
      ensures r == Finished <==> Accepted(first, Provisional(get, head, manifest), retry, hash, root).Some?
    {
      r := DownloadResponse(first, Provisional(get, head, manifest), retry);
      hide Rows, CountFor, Flat, Accepted, Provisional, Reported, Seen;
      if r == Finished {
        FinishedSeen(queue);
      } else {
        if r == Errored {
          DiscardChunks();
          queue := queue + [Failed];
        }
        NoComplete(queue);
      }
    }
  }

  /** The consumer sees 100%. */
  ghost predicate Reported(queue: seq<Item>) { exists c :: c in Seen(queue) && c.Complete? }

  lemma NoComplete(queue: seq<Item>)
    requires forall k | 0 <= k < |queue| :: !queue[k].Complete?
    ensures !Reported(queue)
  {
    SeenPart(queue, Failed);
  }

  /** A last `Complete` is seen exactly when nothing failed before it. */
  lemma FinishedSeen(queue: seq<Item>)
    requires queue != [] && queue[|queue| - 1].Complete? && forall k | 0 <= k < |queue| - 1 :: !queue[k].Complete?
    ensures Reported(queue) <==> Clean(queue)
    ensures Clean(queue) ==> Seen(queue) == queue
  {
    var before, last := queue[..|queue| - 1], queue[|queue| - 1];
    assert queue == before + [last];
    SeenPart(before, last);
    NoComplete(before);
    assert Clean(queue) <==> Clean(before);
    assert last in before + [last];
  }

  lemma HeldNothing(base: map<nat, Stored>, total: Option<nat>)
    ensures Held(base, [], 0, total) == base
  {
    if total.Some? { assert Full([], 0, total.value) == map[]; }
  }

  lemma HeldStep(base: map<nat, Stored>, received: seq<Byte>, n: nat, total: Option<nat>)
    requires IsFull(received, n)
    ensures var was := Held(base, received, n, total);
            Held(base, received, n + 1, total)
            == if total.Some? && n < total.value then was[n := Stored(received[n * CHUNK_BYTES..][..CHUNK_BYTES], total.value)] else was
    ensures received[n * CHUNK_BYTES..][CHUNK_BYTES..] == received[(n + 1) * CHUNK_BYTES..]
  {
    var low := n * CHUNK_BYTES;
    assert received[low..][..CHUNK_BYTES] == FullChunk(received, n);
    assert received[low..][CHUNK_BYTES..] == received[low + CHUNK_BYTES..];
    if total.Some? {
      FullGrows(received, n, total.value);
      hide Full, FullChunk, IsFull;
    }
  }

  lemma FullGrows(received: seq<Byte>, n: nat, total: nat)
    requires IsFull(received, n)
    ensures Full(received, n + 1, total)
         == if n < total then Full(received, n, total)[n := Stored(FullChunk(received, n), total)] else Full(received, n, total)
  {
    hide IsFull, FullChunk;
  }

  lemma HeldExtends(base: map<nat, Stored>, received: seq<Byte>, value: seq<Byte>, n: nat, total: Option<nat>)
    requires n * CHUNK_BYTES <= |received|
    ensures Held(base, received + value, n, total) == Held(base, received, n, total)
    ensures (received + value)[n * CHUNK_BYTES..] == received[n * CHUNK_BYTES..] + value
  {
    forall i: nat | i < n
      ensures IsFull(received, i) && IsFull(received + value, i) && FullChunk(received + value, i) == FullChunk(received, i)
    {
      ChunkExtends(received, value, n, i);
    }
    hide IsFull, FullChunk;
  }

  lemma ChunkExtends(received: seq<Byte>, value: seq<Byte>, n: nat, i: nat)
    requires n * CHUNK_BYTES <= |received| && i < n
    ensures IsFull(received, i) && IsFull(received + value, i) && FullChunk(received + value, i) == FullChunk(received, i)
  {
    var low := i * CHUNK_BYTES;
    assert low + CHUNK_BYTES <= |received|;
    assert (received + value)[low..low + CHUNK_BYTES] == received[low..low + CHUNK_BYTES];
  }

  lemma HeldAll(base: map<nat, Stored>, received: seq<Byte>, n: nat, total: Option<nat>)
    requires n * CHUNK_BYTES <= |received| < (n + 1) * CHUNK_BYTES
    ensures var rest := received[n * CHUNK_BYTES..];
            base + Pass(received, total)
            == if total.Some? && (rest != [] || received == []) && n == total.value - 1
               then Held(base, received, n, total)[n := Stored(rest, total.value)] else Held(base, received, n, total)
  {
    if total.Some? {
      RowsAreFull(received, n, total.value);
      hide Rows, Full;
    } else {
      assert base + map[] == base;
    }
  }
}
