/** A file as its fixed-size chunks. */
module Chunks {
  import opened Basics

  const CHUNK_BYTES := 51000

  newtype Byte = x: int | 0 <= x < 256

  /** How many chunks a file of this size has; an empty file has one. */
  function CountFor(size: nat): nat {
    if size == 0 then 1 else (size + CHUNK_BYTES - 1) / CHUNK_BYTES
  }

  /** The canonical chunks: all full except the last, which is never empty unless the file is. */
  function Canonical(bytes: seq<Byte>): seq<seq<Byte>> {
    if |bytes| <= CHUNK_BYTES then [bytes] else [bytes[..CHUNK_BYTES]] + Canonical(bytes[CHUNK_BYTES..])
  }

  function Flat(parts: seq<seq<Byte>>): seq<Byte> {
    if parts == [] then [] else parts[0] + Flat(parts[1..])
  }

  lemma {:induction false} FlatSnoc(parts: seq<seq<Byte>>, part: seq<Byte>)
    ensures Flat(parts + [part]) == Flat(parts) + part
  {
    if parts == [] {
      assert parts + [part] == [part];
      assert [part][1..] == [];
    } else {
      assert (parts + [part])[1..] == parts[1..] + [part];
      FlatSnoc(parts[1..], part);
    }
  }

  lemma {:induction false} CanonicalCount(bytes: seq<Byte>)
    ensures |Canonical(bytes)| == CountFor(|bytes|)
  {
    if |bytes| > CHUNK_BYTES { CanonicalCount(bytes[CHUNK_BYTES..]); }
  }

  /** Splitting loses nothing. */
  lemma {:induction false} CanonicalFlat(bytes: seq<Byte>)
    ensures Flat(Canonical(bytes)) == bytes
  {
    if |bytes| > CHUNK_BYTES {
      CanonicalFlat(bytes[CHUNK_BYTES..]);
    } else {
      assert [bytes][1..] == [];
    }
  }

  /** Where each chunk lies in the file. */
  lemma {:induction false} CanonicalAt(bytes: seq<Byte>, i: nat)
    requires i < CountFor(|bytes|)
    ensures i < |Canonical(bytes)| && i * CHUNK_BYTES <= |bytes|
    ensures Canonical(bytes)[i] == bytes[i * CHUNK_BYTES..Min((i + 1) * CHUNK_BYTES, |bytes|)]
    decreases i
  {
    CanonicalCount(bytes);
    if i > 0 {
      var rest := bytes[CHUNK_BYTES..];
      CanonicalAt(rest, i - 1);
      var from, to := (i - 1) * CHUNK_BYTES, Min(i * CHUNK_BYTES, |rest|);
      assert rest[from..to] == bytes[from + CHUNK_BYTES..to + CHUNK_BYTES];
    }
  }
}
