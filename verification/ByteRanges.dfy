/** Serving one byte range of a file that is stored as fixed-size chunks. */
module ByteRanges {
  import opened Basics
  import opened Chunks

  const WINDOW_CHUNKS := 256

  datatype Range = Range(start: int, end: int, partial: bool)

  // ---- the Range header ----

  predicate IsDigit(c: char) { '0' <= c <= '9' }

  predicate AllDigits(s: string) { forall k | 0 <= k < |s| :: IsDigit(s[k]) }

  function LeadingDigits(s: string): (n: nat)
    ensures n <= |s|
  {
    if s == "" || !IsDigit(s[0]) then 0 else 1 + LeadingDigits(s[1..])
  }

  function Digit(c: char): nat
    requires IsDigit(c)
  {
    c as int - '0' as int
  }

  function Number(digits: string): nat
    requires AllDigits(digits)
  {
    if digits == "" then 0
    else Number(digits[..|digits| - 1]) * 10 + Digit(digits[|digits| - 1])
  }

  lemma {:induction false} LeadingAreDigits(s: string)
    ensures forall k | 0 <= k < LeadingDigits(s) :: IsDigit(s[k])
    ensures LeadingDigits(s) < |s| ==> !IsDigit(s[LeadingDigits(s)])
  {
    if s != "" && IsDigit(s[0]) { LeadingAreDigits(s[1..]); }
  }

  lemma {:induction false} LeadingOf(digits: string, rest: string)
    requires forall k | 0 <= k < |digits| :: IsDigit(digits[k])
    requires rest != "" ==> !IsDigit(rest[0])
    ensures LeadingDigits(digits + rest) == |digits|
  {
    if digits == "" {
      assert digits + rest == rest;
    } else {
      assert (digits + rest)[1..] == digits[1..] + rest;
      LeadingOf(digits[1..], rest);
    }
  }

  const PREFIX := "bytes="

  /** The two digit runs of `bytes=<digits>-<digits>`, or none when the header has another form. */
  function Match(header: string): Option<(string, string)> {
    if !(PREFIX <= header) then None
    else
      var t := header[|PREFIX|..];
      var k := LeadingDigits(t);
      if k == |t| || t[k] != '-' || k + 1 + LeadingDigits(t[k + 1..]) != |t| then None
      else Some((t[..k], t[k + 1..]))
  }

  /** The pattern matches exactly the headers of that form, and captures the two runs. */
  lemma MatchExact(header: string, a: string, b: string)
    ensures Match(header) == Some((a, b)) <==> AllDigits(a) && AllDigits(b) && header == PREFIX + a + "-" + b
  {
    if AllDigits(a) && AllDigits(b) && header == PREFIX + a + "-" + b { FormMatches(a, b); }
    if Match(header) == Some((a, b)) { MatchHasForm(header, a, b); }
    hide Match, AllDigits;
  }

  lemma FormMatches(a: string, b: string)
    requires AllDigits(a) && AllDigits(b)
    ensures Match(PREFIX + a + "-" + b) == Some((a, b))
  {
    var header, t := PREFIX + a + "-" + b, a + ("-" + b);
    assert header == PREFIX + t && header[|PREFIX|..] == t;
    LeadingOf(a, "-" + b);
    assert t[..|a|] == a && t[|a|] == '-' && t[|a| + 1..] == b && b + "" == b;
    LeadingOf(b, "");
    hide LeadingDigits, AllDigits;
  }

  lemma MatchHasForm(header: string, a: string, b: string)
    requires Match(header) == Some((a, b))
    ensures AllDigits(a) && AllDigits(b) && header == PREFIX + a + "-" + b
  {
    var t := header[|PREFIX|..];
    LeadingAreDigits(t);
    LeadingAreDigits(b);
    hide LeadingDigits, AllDigits;
    Pieces(header, |PREFIX|, |a|);
  }

  lemma Pieces(s: string, m: nat, n: nat)
    requires m + n < |s|
    ensures s == s[..m] + s[m..][..n] + [s[m..][n]] + s[m..][n + 1..]
  {
  }

  function ParseRange(header: Option<string>, byteLength: int): (r: Option<Range>) {
    if header == None || header.value == "" then Some(Range(0, byteLength - 1, false))
    else match Match(header.value)
      case None => None
      case Some((first, last)) =>
        MatchExact(header.value, first, last);
        if (first == "" && last == "") || byteLength <= 0 then None
        else if first == "" then
          var suffix := Number(last);
          if suffix > MAX_SAFE || suffix <= 0 then None
          else Some(Range(if byteLength - suffix > 0 then byteLength - suffix else 0, byteLength - 1, true))
        else
          var start := Number(first);
          if start > MAX_SAFE || start >= byteLength then None
          else if last == "" then Some(Range(start, byteLength - 1, true))
          else
            var end := Number(last);
            if end > MAX_SAFE || end < start then None
            else Some(Range(start, Min(end, byteLength - 1), true))
  }

  // ---- what RFC 9110, section 14.1.2, says ----

  datatype Spec = IntRange(first: nat, last: nat) | FromOn(first: nat) | Suffix(length: nat)

  /** A syntactically valid single range specifier. */
  function SpecOf(a: string, b: string): Option<Spec>
    requires AllDigits(a) && AllDigits(b)
  {
    if a == "" && b == "" then None
    else if a == "" then Some(Suffix(Number(b)))
    else if b == "" then Some(FromOn(Number(a)))
    else if Number(b) < Number(a) then None
    else Some(IntRange(Number(a), Number(b)))
  }

  /** The bytes a specifier selects from a representation of this length. */
  predicate Selects(spec: Spec, length: nat, p: nat) {
    p < length && match spec
      case IntRange(first, last) => first <= p <= last
      case FromOn(first) => first <= p
      case Suffix(n) => length <= p + n
  }

  predicate Satisfiable(spec: Spec, length: nat) {
    match spec
    case IntRange(first, _) => first < length
    case FromOn(first) => first < length
    case Suffix(n) => n != 0
  }

  predicate Exact(spec: Spec) {
    match spec
    case IntRange(first, last) => last <= MAX_SAFE
    case FromOn(first) => first <= MAX_SAFE
    case Suffix(n) => n <= MAX_SAFE
  }

  /**
   * For a file that is not empty: a header of the single-range form is answered with exactly the bytes that the
   * standard selects if the specifier is valid and satisfiable and its numbers are safe integers, and is refused
   * otherwise; the standard would also accept numbers that are too large to be safe.
   */
  lemma ParseFollowsStandard(header: string, a: string, b: string, byteLength: nat)
    requires AllDigits(a) && AllDigits(b) && header == PREFIX + a + "-" + b && byteLength > 0
    ensures var spec := SpecOf(a, b);
            match ParseRange(Some(header), byteLength)
            case None => spec == None || !Satisfiable(spec.value, byteLength) || !Exact(spec.value)
            case Some(r) =>
              && spec.Some? && Satisfiable(spec.value, byteLength) && Exact(spec.value)
              && r.partial && 0 <= r.start <= r.end < byteLength
              && forall p: nat :: r.start <= p <= r.end <==> Selects(spec.value, byteLength, p)
  {
    MatchExact(header, a, b);
    assert header != "";
    hide Number, Match;
  }

  /** Any other header, a list of ranges or another unit for instance, is refused; no header selects everything. */
  lemma ParseRefuses(header: Option<string>, byteLength: nat)
    requires byteLength > 0
    ensures var r := ParseRange(header, byteLength);
            && (header == None || header.value == "" <==> r == Some(Range(0, byteLength - 1, false)))
            && (r.Some? && r.value.partial ==> exists a, b :: AllDigits(a) && AllDigits(b) && header.value == PREFIX + a + "-" + b)
            && (r.Some? ==> 0 <= r.value.start <= r.value.end < byteLength)
  {
    if header.Some? && header.value != "" && Match(header.value).Some? {
      var (a, b) := Match(header.value).value;
      MatchExact(header.value, a, b);
      ParseFollowsStandard(header.value, a, b, byteLength);
    }
  }

  /** A last position too large to be a safe integer is refused although the standard satisfies it. */
  lemma HugeLastRefused(a: string, b: string, byteLength: nat)
    requires AllDigits(a) && AllDigits(b) && a != "" && Number(a) < byteLength <= MAX_SAFE < Number(b)
    ensures ParseRange(Some(PREFIX + a + "-" + b), byteLength) == None
    ensures SpecOf(a, b).Some? && Satisfiable(SpecOf(a, b).value, byteLength)
  {
    ParseFollowsStandard(PREFIX + a + "-" + b, a, b, byteLength);
  }

  /** So is a suffix length too large to be a safe integer, although the standard answers it with the whole file. */
  lemma HugeSuffixRefused(b: string, byteLength: nat)
    requires AllDigits(b) && 0 < byteLength <= MAX_SAFE < Number(b)
    ensures ParseRange(Some(PREFIX + "" + "-" + b), byteLength) == None
    ensures SpecOf("", b).Some? && Satisfiable(SpecOf("", b).value, byteLength)
  {
    ParseFollowsStandard(PREFIX + "" + "-" + b, "", b, byteLength);
  }

  // ---- decimal numbers ----

  const DIGITS := "0123456789"

  /** The decimal numeral of a number. */
  function Decimal(n: nat): string {
    if n < 10 then [DIGITS[n]] else Decimal(n / 10) + [DIGITS[n % 10]]
  }

  lemma DigitOf(d: nat)
    requires d < 10
    ensures IsDigit(DIGITS[d]) && Digit(DIGITS[d]) == d
  {
  }

  lemma NumberSnoc(digits: string, c: char)
    requires AllDigits(digits) && IsDigit(c)
    ensures AllDigits(digits + [c]) && Number(digits + [c]) == 10 * Number(digits) + Digit(c)
  {
    assert (digits + [c])[..|digits|] == digits;
  }

  /** Digits are read as decimal. */
  lemma {:induction false} NumberOfDecimal(n: nat)
    ensures AllDigits(Decimal(n)) && Decimal(n) != "" && Number(Decimal(n)) == n
  {
    DigitOf(n % 10);
    if n < 10 {
      NumberSnoc("", DIGITS[n]);
      assert "" + [DIGITS[n]] == Decimal(n);
    } else {
      NumberOfDecimal(n / 10);
      NumberSnoc(Decimal(n / 10), DIGITS[n % 10]);
    }
  }

  function Zeros(n: nat): string { seq(n, _ => '0') }

  /** Leading zeros do not count. */
  lemma {:induction false} LeadingZeros(n: nat, digits: string)
    requires AllDigits(digits)
    ensures AllDigits(Zeros(n) + digits) && Number(Zeros(n) + digits) == Number(digits)
  {
    if digits != "" {
      var k := |digits| - 1;
      LeadingZeros(n, digits[..k]);
      NumberSnoc(Zeros(n) + digits[..k], digits[k]);
      assert Zeros(n) + digits == Zeros(n) + digits[..k] + [digits[k]];
    } else if n > 0 {
      LeadingZeros(n - 1, "");
      NumberSnoc(Zeros(n - 1), '0');
      assert Zeros(n) + "" == Zeros(n - 1) + ['0'] && Zeros(n - 1) + "" == Zeros(n - 1);
    } else {
      assert Zeros(0) + "" == "";
    }
  }

  /** What a client that writes plain numbers gets: from `first` to `last`, from `first` on, or the last `last` bytes. */
  lemma PlainRanges(first: nat, last: nat, length: nat)
    requires 0 < length <= MAX_SAFE && first <= MAX_SAFE && last <= MAX_SAFE
    ensures ParseRange(Some("bytes=" + Decimal(first) + "-" + Decimal(last)), length)
         == if first < length && first <= last then Some(Range(first, if last < length then last else length - 1, true)) else None
    ensures ParseRange(Some("bytes=" + Decimal(first) + "-"), length) == if first < length then Some(Range(first, length - 1, true)) else None
    ensures ParseRange(Some("bytes=-" + Decimal(last)), length)
         == if last == 0 then None else Some(Range(if last < length then length - last else 0, length - 1, true))
  {
    NumberOfDecimal(first);
    NumberOfDecimal(last);
    var a, b := Decimal(first), Decimal(last);
    hide Decimal, Number, Match;
    MatchExact("bytes=" + a + "-" + b, a, b);
    assert "bytes=" + a + "-" == PREFIX + a + "-" + "" && "bytes=-" + b == PREFIX + "" + "-" + b;
    MatchExact("bytes=" + a + "-", a, "");
    MatchExact("bytes=-" + b, "", b);
  }

  // ---- streaming ----

  /** How far into the requested bytes the stream is before it sends chunk `index`. */
  ghost function Sent(startByte: nat, endByte: nat, index: nat): nat {
    var cut := Min(index * CHUNK_BYTES, endByte + 1);
    if cut < startByte then startByte else cut
  }

  /** The part of chunk `index` that the range asks for. */
  function Slice(file: seq<Byte>, startByte: nat, endByte: nat, index: nat): (nat, nat)
    requires index < |Canonical(file)|
  {
    (if index == startByte / CHUNK_BYTES then startByte % CHUNK_BYTES else 0,
     if index == endByte / CHUNK_BYTES then endByte % CHUNK_BYTES + 1 else |Canonical(file)[index]|)
  }

  /** The slice that is sent for one chunk is the next piece of the requested bytes. */
  lemma SliceOfChunk(file: seq<Byte>, startByte: nat, endByte: nat, index: nat)
    requires startByte <= endByte < |file|
    requires startByte / CHUNK_BYTES <= index <= endByte / CHUNK_BYTES
    requires index < |Canonical(file)|
    ensures var (from, to) := Slice(file, startByte, endByte, index); from <= to <= |Canonical(file)[index]|
    ensures var (from, to) := Slice(file, startByte, endByte, index);
            var was, now := Sent(startByte, endByte, index), Sent(startByte, endByte, index + 1);
            startByte <= was <= now <= endByte + 1 && Canonical(file)[index][from..to] == file[was..now]
  {
    CanonicalCount(file);
    CanonicalAt(file, index);
    SentBefore(startByte, endByte, index);
    SentAfter(startByte, endByte, index);
    hide Canonical, CountFor, Sent;
    var (from, to) := Slice(file, startByte, endByte, index);
    var low, high := index * CHUNK_BYTES, Min((index + 1) * CHUNK_BYTES, |file|);
    assert to <= high - low;
    SubSlice(file, low, high, from, to);
  }

  lemma SubSlice(file: seq<Byte>, low: nat, high: nat, from: nat, to: nat)
    requires low <= high <= |file| && from <= to <= high - low
    ensures file[low..high][from..to] == file[low + from..low + to]
  {
    var outer := file[low..high];
    forall i | 0 <= i < to - from ensures outer[from..to][i] == file[low + from..low + to][i] {
      assert outer[from + i] == file[low + from + i];
    }
  }

  lemma SentBefore(startByte: nat, endByte: nat, index: nat)
    requires startByte <= endByte && startByte / CHUNK_BYTES <= index <= endByte / CHUNK_BYTES
    ensures Sent(startByte, endByte, index) == index * CHUNK_BYTES + if index == startByte / CHUNK_BYTES then startByte % CHUNK_BYTES else 0
  {
    assert index * CHUNK_BYTES <= endByte;
    assert index > startByte / CHUNK_BYTES ==> startByte < index * CHUNK_BYTES;
  }

  lemma SentAfter(startByte: nat, endByte: nat, index: nat)
    requires startByte <= endByte && startByte / CHUNK_BYTES <= index <= endByte / CHUNK_BYTES
    ensures Sent(startByte, endByte, index + 1)
         == index * CHUNK_BYTES + if index == endByte / CHUNK_BYTES then endByte % CHUNK_BYTES + 1 else CHUNK_BYTES
  {
    assert startByte < (index + 1) * CHUNK_BYTES;
    assert index < endByte / CHUNK_BYTES ==> (index + 1) * CHUNK_BYTES <= endByte;
  }

  lemma Append(file: seq<Byte>, start: nat, was: nat, now: nat)
    requires start <= was <= now <= |file|
    ensures file[start..was] + file[was..now] == file[start..now]
  {
  }

  /** Sends the chunks of one loaded window. */
  method StreamWindow(file: seq<Byte>, chunks: seq<seq<Byte>>, startByte: nat, endByte: nat, start: nat, end: nat, sent: seq<Byte>)
    returns (body: seq<Byte>)
    requires startByte <= endByte < |file| && chunks == Canonical(file)
    requires startByte / CHUNK_BYTES <= start <= end <= endByte / CHUNK_BYTES
    requires Sent(startByte, endByte, start) <= |file| && sent == file[startByte..Sent(startByte, endByte, start)]
    ensures Sent(startByte, endByte, end + 1) <= endByte + 1
    ensures body == file[startByte..Sent(startByte, endByte, end + 1)]
  {
    CanonicalCount(file);
    var firstIndex, lastIndex := startByte / CHUNK_BYTES, endByte / CHUNK_BYTES;
    body := sent;
    var index := start;
    while index <= end
      invariant start <= index <= end + 1
      invariant Sent(startByte, endByte, index) <= |file| && (index > start ==> Sent(startByte, endByte, index) <= endByte + 1)
      invariant body == file[startByte..Sent(startByte, endByte, index)]
    {
      assert index < |chunks|;
      var from, to := 0, |chunks[index]|;
      if index == firstIndex { from := startByte % CHUNK_BYTES; }
      if index == lastIndex { to := endByte % CHUNK_BYTES + 1; }
      assert (from, to) == Slice(file, startByte, endByte, index);
      SliceOfChunk(file, startByte, endByte, index);
      hide Sent, Slice, Canonical, CountFor;
      Append(file, startByte, Sent(startByte, endByte, index), Sent(startByte, endByte, index + 1));
      body := body + chunks[index][from..to];
      index := index + 1;
    }
  }

  /** The windows that a range needs, counted from its first chunk. */
  ghost predicate AllLoad(startByte: nat, endByte: nat, loads: nat -> bool, windows: nat) {
    forall k: nat | k < windows && startByte / CHUNK_BYTES + k * 256 <= endByte / CHUNK_BYTES ::
      loads(startByte / CHUNK_BYTES + k * 256)
  }

  /** Every window that the bytes from `startByte` to `endByte` need can be loaded. */
  ghost predicate Loadable(startByte: nat, endByte: nat, loads: nat -> bool) {
    AllLoad(startByte, endByte, loads, endByte / CHUNK_BYTES + 1)
  }

  /** One more window: it decides whether all load if it is one that the range needs. */
  lemma NextWindow(startByte: nat, endByte: nat, loads: nat -> bool, k: nat)
    requires startByte <= endByte && AllLoad(startByte, endByte, loads, k)
    ensures var start := startByte / CHUNK_BYTES + k * WINDOW_CHUNKS;
            && (start > endByte / CHUNK_BYTES ==> Loadable(startByte, endByte, loads))
            && (start <= endByte / CHUNK_BYTES && loads(start) ==> AllLoad(startByte, endByte, loads, k + 1))
            && (start <= endByte / CHUNK_BYTES && !loads(start) ==> !Loadable(startByte, endByte, loads))
  {
    assert startByte / CHUNK_BYTES + k * WINDOW_CHUNKS <= endByte / CHUNK_BYTES ==> k < endByte / CHUNK_BYTES + 1;
  }

  /** Loads every window once before anything is answered. */
  method EnsureByteRange(startByte: nat, endByte: nat, loads: nat -> bool) returns (ok: bool)
    requires startByte <= endByte
    ensures ok <==> Loadable(startByte, endByte, loads)
  {
    assert AllLoad(startByte, endByte, loads, 0);
    hide AllLoad, Loadable;
    var firstIndex, lastIndex := startByte / CHUNK_BYTES, endByte / CHUNK_BYTES;
    var start := firstIndex;
    ghost var k: nat := 0;
    while start <= lastIndex
      invariant start == firstIndex + k * WINDOW_CHUNKS && AllLoad(startByte, endByte, loads, k)
      decreases lastIndex + 1 - start
    {
      NextWindow(startByte, endByte, loads, k);
      if !loads(start) { return false; }
      start := start + WINDOW_CHUNKS;
      k := k + 1;
    }
    NextWindow(startByte, endByte, loads, k);
    ok := true;
  }

  /**
   * Streams bytes `startByte` to `endByte`, window by window. `loads(w)` says whether the window that begins at
   * chunk `w` can be loaded; chunks are authenticated, so a loaded window holds the canonical chunks.
   */
  method StreamByteRange(file: seq<Byte>, startByte: nat, endByte: nat, loads: nat -> bool) returns (body: seq<Byte>, complete: bool)
    requires startByte <= endByte < |file|
    ensures complete ==> body == file[startByte..endByte + 1]
    ensures body <= file[startByte..endByte + 1]
    ensures complete <==> Loadable(startByte, endByte, loads)
  {
    assert AllLoad(startByte, endByte, loads, 0);
    hide Canonical, CountFor, AllLoad, Loadable;
    var chunks := Canonical(file);
    body := [];
    var firstIndex, lastIndex := startByte / CHUNK_BYTES, endByte / CHUNK_BYTES;
    assert Sent(startByte, endByte, firstIndex) == startByte;
    var start := firstIndex;
    ghost var k: nat := 0;
    while start <= lastIndex
      invariant start == firstIndex + k * WINDOW_CHUNKS
      invariant startByte <= Sent(startByte, endByte, Min(start, lastIndex + 1)) <= endByte + 1
      invariant body == file[startByte..Sent(startByte, endByte, Min(start, lastIndex + 1))]
      invariant AllLoad(startByte, endByte, loads, k)
      decreases lastIndex + 1 - start
    {
      var end := Min(lastIndex, start + WINDOW_CHUNKS - 1);
      NextWindow(startByte, endByte, loads, k);
      if !loads(start) {
        SentPrefix(file, startByte, endByte, start);
        return body, false;
      }
      body := StreamWindow(file, chunks, startByte, endByte, start, end, body);
      assert Min(start + WINDOW_CHUNKS, lastIndex + 1) == end + 1;
      SentGrows(startByte, endByte, end + 1);
      hide Sent;
      start := start + WINDOW_CHUNKS;
      k := k + 1;
    }
    NextWindow(startByte, endByte, loads, k);
    assert Sent(startByte, endByte, lastIndex + 1) == endByte + 1;
    complete := true;
  }

  lemma SentPrefix(file: seq<Byte>, startByte: nat, endByte: nat, index: nat)
    requires startByte <= endByte < |file|
    ensures startByte <= Sent(startByte, endByte, index) <= endByte + 1
    ensures file[startByte..Sent(startByte, endByte, index)] <= file[startByte..endByte + 1]
  {
  }

  lemma SentGrows(startByte: nat, endByte: nat, index: nat)
    requires startByte <= endByte
    ensures startByte <= Sent(startByte, endByte, index) <= endByte + 1
  {
  }

  datatype Response = Response(status: nat, contentLength: nat, contentRange: Option<Range>, body: Option<seq<Byte>>)

  /** What a header asks of this file. */
  function Asked(file: seq<Byte>, header: Option<string>): Option<Range> { ParseRange(header, |file|) }

  /** Only a file whose length is a positive safe integer is served. */
  predicate Servable(file: seq<Byte>) { 0 < |file| <= MAX_SAFE }

  /** Some window cannot be loaded of a range that was asked for with GET. */
  ghost predicate Unavailable(file: seq<Byte>, header: Option<string>, head: bool, loads: nat -> bool) {
    var asked := Asked(file, header);
    !head && asked.Some? && 0 <= asked.value.start <= asked.value.end && !Loadable(asked.value.start, asked.value.end, loads)
  }

  /**
   * Answers a GET or a HEAD: the total and the last chunk, if they were found, give the length, and the header the range. A GET
   * loads every window before it answers, and every window again (`reloads`) while it streams.
   */
  method Open(file: seq<Byte>, found: Option<(nat, seq<Byte>)>, header: Option<string>, head: bool, loads: nat -> bool, reloads: nat -> bool)
    returns (r: Response, complete: bool)
    requires found.Some? ==> found.value.0 == |Canonical(file)| && found.value.1 == Canonical(file)[found.value.0 - 1]
    ensures r.status == 404 <==> found == None || !Servable(file) || Unavailable(file, header, head, loads)
    ensures r.status == 416 <==> found.Some? && Servable(file) && Asked(file, header) == None
    ensures r.status == 206 <==> r.contentRange.Some?
    ensures r.status == 200 || r.status == 206 ==>
              var asked := Asked(file, header);
              && asked.Some? && 0 <= asked.value.start <= asked.value.end < |file|
              && (r.status == 206 <==> asked.value.partial) && (r.contentRange.Some? ==> r.contentRange == asked)
              && r.contentLength == asked.value.end - asked.value.start + 1
              && (head <==> r.body == None)
              && (r.body.Some? ==>
                    && (complete <==> Loadable(asked.value.start, asked.value.end, reloads))
                    && ((forall w | loads(w) :: reloads(w)) ==> complete)
                    && r.body.value <= file[asked.value.start..asked.value.end + 1]
                    && (complete ==> r.body.value == file[asked.value.start..asked.value.end + 1]))
    ensures r.status in {200, 206, 404, 416} && (r.status >= 400 ==> r.body == None && r.contentLength == 0)
  {
    complete := true;
    if found.None? { return Response(404, 0, None, None), true; }
    var (total, last) := found.value;
    CanonicalCount(file);
    CanonicalAt(file, total - 1);
    hide AllLoad, Canonical, CountFor;
    var byteLength := (total - 1) * CHUNK_BYTES + |last|;
    assert byteLength == |file|;
    if byteLength > MAX_SAFE || byteLength <= 0 { return Response(404, 0, None, None), true; }
    ParseRefuses(header, byteLength);
    hide ParseRange;
    var parsed := ParseRange(header, byteLength);
    if parsed.None? { return Response(416, 0, None, None), true; }
    var range := parsed.value;
    var status, contentLength := if range.partial then 206 else 200, range.end - range.start + 1;
    var contentRange := if range.partial then parsed else None;
    if head { return Response(status, contentLength, contentRange, None), true; }
    var ok := EnsureByteRange(range.start, range.end, loads);
    if !ok { return Response(404, 0, None, None), true; }
    var body;
    body, complete := StreamByteRange(file, range.start, range.end, reloads);
    r := Response(status, contentLength, contentRange, Some(body));
    StaysLoadable(range.start, range.end, loads, reloads);
  }

  lemma StaysLoadable(startByte: nat, endByte: nat, loads: nat -> bool, reloads: nat -> bool)
    requires Loadable(startByte, endByte, loads)
    ensures (forall w | loads(w) :: reloads(w)) ==> Loadable(startByte, endByte, reloads)
  {
  }
}
