/** Scanners that read a file in pieces and must agree with a scan of the whole file. */
module StreamScan {
  import opened Bytes

  const MAXIMUM_MAIN_EXECUTABLE_BYTES := 512 * 1024 * 1024
  /** b"BINANCE_AUTO_RELEASE_COMMIT=" */
  const MARKER_PREFIX: seq<byte> := [
    66, 73, 78, 65, 78, 67, 69, 95, 65, 85, 84, 79, 95, 82, 69, 76, 69, 65, 83, 69, 95,
    67, 79, 77, 77, 73, 84, 61]
  /** b"UNVERIFIED" */
  const UNVERIFIED: seq<byte> := [85, 78, 86, 69, 82, 73, 70, 73, 69, 68]

  /** What validate_expected_commit lets through: forty lowercase hexadecimal digits. */
  predicate ValidCommit(commit: seq<byte>) {
    |commit| == 40 && forall i :: 0 <= i < 40 ==> 48 <= commit[i] <= 57 || 97 <= commit[i] <= 102
  }

  /** Successive non-empty reads; an empty read then reports the end of the file. */
  predicate Reads(chunks: seq<seq<byte>>) {
    forall i :: 0 <= i < |chunks| ==> chunks[i] != []
  }

  /** The occurrences of `needle` that start before `limit` in one buffer. */
  method CountInBuffer(buffer: seq<byte>, needle: seq<byte>, limit: nat) returns (found: nat)
    requires needle != []
    ensures found == CountBelow(buffer, needle, limit)
  {
    found := 0;
    var searchPosition: nat := 0;
    while true
      invariant searchPosition <= limit
      invariant found == CountBelow(buffer, needle, searchPosition)
      decreases limit - searchPosition
    {
      var matchPosition := Find(buffer, needle, searchPosition);
      if matchPosition < 0 || matchPosition >= limit {
        CountNone(buffer, needle, searchPosition, limit);
        break;
      }
      CountNone(buffer, needle, searchPosition, matchPosition);
      found := found + 1;
      searchPosition := matchPosition + 1;
    }
  }

  function Max(a: int, b: int): int { if a < b then b else a }

  /** Counting resumes at `base` in the grown file exactly where the carried bytes begin. */
  lemma CarryOn(read: seq<byte>, chunk: seq<byte>, base: nat, limit: nat, needle: seq<byte>)
    requires needle != [] && base <= |read|
    requires base == 0 || base - 1 + |needle| <= |read|
    ensures CountBelow(read + chunk, needle, base + limit)
         == CountBelow(read, needle, base) + CountBelow(read[base..] + chunk, needle, limit)
  {
    CountExtend(read, chunk, needle, base);
    CountShift(read + chunk, base, needle, limit);
    assert (read + chunk)[base..] == read[base..] + chunk;
  }

  /** Every counter stands at the number of occurrences of its needle that start below `base`. */
  ghost predicate Counted(counts: seq<nat>, needles: seq<seq<byte>>, read: seq<byte>, base: nat) {
    |counts| == |needles| && forall k :: 0 <= k < |needles| ==> counts[k] == CountBelow(read, needles[k], base)
  }

  /** No needle is empty or longer than `maximum`. */
  predicate Bounded(needles: seq<seq<byte>>, maximum: nat) {
    forall k :: 0 <= k < |needles| ==> 0 < |needles[k]| <= maximum
  }

  /** One pass of the needle loop over the carried bytes and a fresh chunk. */
  method CountRound(counts: seq<nat>, needles: seq<seq<byte>>, maximum: nat, combined: seq<byte>, limit: nat,
                    ghost read: seq<byte>, ghost chunk: seq<byte>, ghost base: nat)
    returns (next: seq<nat>)
    requires Bounded(needles, maximum) && Counted(counts, needles, read, base)
    requires base <= |read| && combined == read[base..] + chunk
    requires base == 0 || base - 1 + maximum <= |read|
    ensures Counted(next, needles, read + chunk, base + limit)
  {
    next := counts;
    for k := 0 to |needles|
      invariant |next| == |needles|
      invariant forall j :: k <= j < |needles| ==> next[j] == counts[j]
      invariant forall j :: 0 <= j < k ==> next[j] == CountBelow(read + chunk, needles[j], base + limit)
    {
      var found := CountInBuffer(combined, needles[k], limit);
      CarryOn(read, chunk, base, limit, needles[k]);
      next := next[k := next[k] + found];
    }
  }

  lemma CarryIsSuffix(read: seq<byte>, chunk: seq<byte>, base: nat, limit: nat)
    requires base <= |read| && base + limit <= |read| + |chunk|
    ensures (read[base..] + chunk)[limit..] == (read + chunk)[base + limit..]
  {
  }

  lemma NextRead(chunks: seq<seq<byte>>, turn: nat)
    requires turn < |chunks|
    ensures Flatten(chunks[..turn + 1]) == Flatten(chunks[..turn]) + chunks[turn]
  {
    assert chunks[..turn + 1][..turn] == chunks[..turn];
  }

  /**
   * The counters of verify_release_commit_marker after the last read: for every way of cutting
   * the file into reads they are the overlapping occurrence counts of the whole file.
   */
  method CountMarkers(chunks: seq<seq<byte>>, needles: seq<seq<byte>>, maximum: nat)
    returns (counts: seq<nat>, bytesRead: nat)
    requires Reads(chunks) && 0 < maximum && Bounded(needles, maximum)
    ensures bytesRead == |Flatten(chunks)|
    ensures Counted(counts, needles, Flatten(chunks), |Flatten(chunks)|)
  {
    counts := seq(|needles|, _ => 0);
    var carry: seq<byte> := [];
    bytesRead := 0;
    ghost var base: nat, read := 0, [];
    for turn := 0 to |chunks|
      invariant read == Flatten(chunks[..turn])
      invariant base <= |read| == bytesRead && carry == read[base..]
      invariant base == 0 || base - 1 + maximum <= |read|
      invariant |carry| < maximum
      invariant Counted(counts, needles, read, base)
    {
      var chunk := chunks[turn];
      bytesRead := bytesRead + |chunk|;
      var combined := carry + chunk;
      var safeStartLimit := Max(0, |combined| - maximum + 1);
      counts := CountRound(counts, needles, maximum, combined, safeStartLimit, read, chunk, base);
      carry := combined[safeStartLimit..];
      CarryIsSuffix(read, chunk, base, safeStartLimit);
      NextRead(chunks, turn);
      read, base := read + chunk, base + safeStartLimit;
    }
    counts := CountRound(counts, needles, maximum, carry + [], |carry|, read, [], base);
    assert read + [] == read && chunks[..|chunks|] == chunks;
  }

  /** The marker test as one statement about the whole file. */
  ghost predicate MarkedOnceWith(data: seq<byte>, commit: seq<byte>) {
    exists p: nat :: UniqueAt(data, MARKER_PREFIX, p) && At(data, MARKER_PREFIX + commit, p)
  }

  lemma AtConcat(data: seq<byte>, a: seq<byte>, b: seq<byte>, p: int)
    ensures At(data, a + b, p) <==> At(data, a, p) && At(data, b, p + |a|)
  {
    if 0 <= p && p + |a + b| <= |data| {
      var window := data[p..p + |a + b|];
      assert window[..|a|] == data[p..p + |a|];
      assert window[|a|..] == data[p + |a|..p + |a| + |b|];
      assert window == window[..|a|] + window[|a|..];
      assert (a + b)[..|a|] == a && (a + b)[|a|..] == b;
    }
  }

  lemma AtHead(data: seq<byte>, needle: seq<byte>, p: int)
    ensures At(data, needle, p) && needle != [] ==> data[p] == needle[0]
  {
    if At(data, needle, p) && needle != [] {
      assert data[p..p + |needle|][0] == data[p];
    }
  }

  /** The three counter checks together say: marked once, and that one mark carries the commit. */
  lemma MarkerCountsDecide(data: seq<byte>, commit: seq<byte>)
    requires ValidCommit(commit)
    ensures (CountBelow(data, MARKER_PREFIX, |data|) == 1
             && CountBelow(data, MARKER_PREFIX + commit, |data|) == 1
             && CountBelow(data, MARKER_PREFIX + UNVERIFIED, |data|) == 0)
       <==> MarkedOnceWith(data, commit)
  {
    var expected := MARKER_PREFIX + commit;
    if CountBelow(data, MARKER_PREFIX, |data|) == 1 && CountBelow(data, expected, |data|) == 1 {
      var p := OneCountIsUnique(data, MARKER_PREFIX);
      var q := CountWitness(data, expected, 0, |data|);
      AtConcat(data, MARKER_PREFIX, commit, q);
      assert q == p;
    }
    if p: nat :| UniqueAt(data, MARKER_PREFIX, p) && At(data, expected, p) {
      UniqueCountsOne(data, MARKER_PREFIX, p);
      UniqueMarkIsExpected(data, commit, p);
      UnverifiedIsImpliedAbsent(data, commit, p);
    }
  }

  lemma UniqueMarkIsExpected(data: seq<byte>, commit: seq<byte>, p: nat)
    requires UniqueAt(data, MARKER_PREFIX, p) && At(data, MARKER_PREFIX + commit, p)
    ensures CountBelow(data, MARKER_PREFIX + commit, |data|) == 1
  {
    forall q | 0 <= q <= |data| && q != p ensures !At(data, MARKER_PREFIX + commit, q) {
      AtConcat(data, MARKER_PREFIX, commit, q);
    }
    UniqueCountsOne(data, MARKER_PREFIX + commit, p);
  }

  /** The check on the UNVERIFIED counter can never be the only one to fail. */
  lemma UnverifiedIsImpliedAbsent(data: seq<byte>, commit: seq<byte>, p: nat)
    requires ValidCommit(commit)
    requires UniqueAt(data, MARKER_PREFIX, p) && At(data, MARKER_PREFIX + commit, p)
    ensures CountBelow(data, MARKER_PREFIX + UNVERIFIED, |data|) == 0
  {
    AtConcat(data, MARKER_PREFIX, commit, p);
    AtHead(data, commit, p + |MARKER_PREFIX|);
    forall q | 0 <= q < |data| ensures !At(data, MARKER_PREFIX + UNVERIFIED, q) {
      AtConcat(data, MARKER_PREFIX, UNVERIFIED, q);
      AtHead(data, UNVERIFIED, q + |MARKER_PREFIX|);
    }
    CountNone(data, MARKER_PREFIX + UNVERIFIED, 0, |data|);
  }

  /** verify_release_commit_marker on a file whose reads are `chunks` and whose recorded size is `size`. */
  method VerifyReleaseCommitMarker(chunks: seq<seq<byte>>, size: int, commit: seq<byte>) returns (accepted: bool)
    requires Reads(chunks) && ValidCommit(commit)
    ensures accepted <==> 0 < size <= MAXIMUM_MAIN_EXECUTABLE_BYTES && size == |Flatten(chunks)|
                          && MarkedOnceWith(Flatten(chunks), commit)
  {
    if size <= 0 || size > MAXIMUM_MAIN_EXECUTABLE_BYTES { return false; }
    var expectedMarker, unverifiedMarker := MARKER_PREFIX + commit, MARKER_PREFIX + UNVERIFIED;
    assert |expectedMarker| == 68 && |unverifiedMarker| == 38 && |MARKER_PREFIX| == 28;
    var needles := [MARKER_PREFIX, expectedMarker, unverifiedMarker];
    var counts, bytesRead := CountMarkers(chunks, needles, |expectedMarker|);
    MarkerCountsDecide(Flatten(chunks), commit);
    accepted := bytesRead == size && counts[0] == 1 && counts[1] == 1 && counts[2] == 0;
  }

  // ---- the canary search ---------------------------------------------------------------

  ghost predicate Occurs(data: seq<byte>, needle: seq<byte>) {
    exists p :: At(data, needle, p)
  }

  /** Python's `buffer[-size:]` for a positive size, and nothing for zero. */
  function Tail(buffer: seq<byte>, size: nat): seq<byte> {
    if size == 0 then [] else if |buffer| <= size then buffer else buffer[|buffer| - size..]
  }

  /** An occurrence that the earlier reads did not hold lies in the kept tail and the new chunk. */
  lemma OverlapSuffices(read: seq<byte>, chunk: seq<byte>, canary: seq<byte>)
    requires canary != [] && !Occurs(read, canary)
    ensures Occurs(read + chunk, canary) <==> Occurs(Tail(read, |canary| - 1) + chunk, canary)
  {
    var tail := Tail(read, |canary| - 1);
    var base := |read| - |tail|;
    assert read[base..] == tail;
    assert (read + chunk)[base..] == tail + chunk;
    if p :| At(read + chunk, canary, p) {
      AtExtend2(read, chunk, canary, p);
      AtSuffix(read + chunk, base, canary, p - base);
      assert At(tail + chunk, canary, p - base);
    }
    if p :| At(tail + chunk, canary, p) {
      AtSuffix(read + chunk, base, canary, p);
      assert At(read + chunk, canary, base + p);
    }
  }

  lemma AtExtend2(read: seq<byte>, chunk: seq<byte>, canary: seq<byte>, p: int)
    requires !Occurs(read, canary) && At(read + chunk, canary, p)
    ensures p + |canary| > |read|
  {
    if p + |canary| <= |read| {
      AtExtend(read, chunk, canary, p);
    }
  }

  lemma TailOfGrown(read: seq<byte>, chunk: seq<byte>, size: nat)
    ensures Tail(Tail(read, size) + chunk, size) == Tail(read + chunk, size)
  {
  }

  lemma OccursExtend(data: seq<byte>, more: seq<byte>, needle: seq<byte>)
    requires Occurs(data, needle)
    ensures Occurs(data + more, needle)
  {
    var p :| At(data, needle, p);
    AtExtend(data, more, needle, p);
    assert At(data + more, needle, p);
  }

  /**
   * file_contains_canary: the answer is that of a search of the whole file, for every way of
   * cutting it into reads. The empty canary is found exactly in the files that deliver a byte.
   */
  method FileContainsCanary(chunks: seq<seq<byte>>, canary: seq<byte>) returns (found: bool)
    requires Reads(chunks)
    ensures canary != [] ==> (found <==> Occurs(Flatten(chunks), canary))
    ensures canary == [] ==> (found <==> Flatten(chunks) != [])
  {
    var overlapSize := Max(0, |canary| - 1);
    var previousTail: seq<byte> := [];
    var turn := 0;
    while true
      invariant 0 <= turn <= |chunks|
      invariant canary == [] ==> turn == 0
      invariant previousTail == Tail(Flatten(chunks[..turn]), overlapSize)
      invariant canary != [] ==> !Occurs(Flatten(chunks[..turn]), canary)
      decreases |chunks| - turn
    {
      if turn == |chunks| {
        assert chunks[..turn] == chunks;
        return false;
      }
      var scanBuffer := previousTail + chunks[turn];
      ghost var read := Flatten(chunks[..turn]);
      NextRead(chunks, turn);
      if canary != [] { OverlapSuffices(read, chunks[turn], canary); }
      var position := Find(scanBuffer, canary, 0);
      if position >= 0 {
        FlattenAppend(chunks[..turn + 1], chunks[turn + 1..]);
        assert chunks[..turn + 1] + chunks[turn + 1..] == chunks;
        if canary != [] { OccursExtend(read + chunks[turn], Flatten(chunks[turn + 1..]), canary); }
        return true;
      }
      if canary == [] { assert At(scanBuffer, canary, 0); }
      TailOfGrown(read, chunks[turn], overlapSize);
      previousTail := Tail(scanBuffer, overlapSize);
      turn := turn + 1;
    }
  }

  // ---- bounded exact reads and the backward cookie search ------------------------------

  /**
   * _read_exact_at: reads may come back short, and the result is still the whole requested
   * range or a failure, decided by the range alone.
   */
  method ReadExactAt(file: seq<byte>, byteCount: int, offset: int) returns (r: Option<seq<byte>>)
    ensures r.Some? <==> 0 <= byteCount && 0 <= offset && (byteCount == 0 || offset + byteCount <= |file|)
    ensures r.Some? && byteCount > 0 ==> r.value == file[offset..offset + byteCount]
    ensures r.Some? && byteCount == 0 ==> r.value == []
  {
    if byteCount < 0 || offset < 0 { return None; }
    var result: seq<byte> := [];
    while |result| < byteCount
      invariant |result| <= byteCount
      invariant result == [] || (offset + |result| <= |file| && result == file[offset..offset + |result|])
      decreases byteCount - |result|
    {
      var here := offset + |result|;
      if here >= |file| { break; }
      var request := if byteCount - |result| < 1024 * 1024 then byteCount - |result| else 1024 * 1024;
      var available := if request < |file| - here then request else |file| - here;
      var delivered :| 1 <= delivered <= available;
      result := result + file[here..here + delivered];
    }
    if |result| != byteCount { return None; }
    return Some(result);
  }

  /** b"MEI\014\013\012\013\016" */
  const COOKIE_MAGIC: seq<byte> := [77, 69, 73, 12, 11, 10, 11, 14]

  /** _find_pyinstaller_cookie: the last occurrence of the magic in the file, or a failure if there is none. */
  method FindPyinstallerCookie(file: seq<byte>) returns (r: Option<nat>)
    ensures r.None? <==> !Occurs(file, COOKIE_MAGIC)
    ensures r.Some? ==> At(file, COOKIE_MAGIC, r.value)
                        && forall q :: q > r.value ==> !At(file, COOKIE_MAGIC, q)
  {
    var searchEnd := |file|;
    while searchEnd >= |COOKIE_MAGIC|
      invariant 0 <= searchEnd <= |file|
      invariant forall q :: q + |COOKIE_MAGIC| > searchEnd ==> !At(file, COOKIE_MAGIC, q)
      decreases searchEnd
    {
      var searchStart := Max(searchEnd - 8192, 0);
      var window := ReadExactAt(file, searchEnd - searchStart, searchStart);
      var relative := FindLast(window.value, COOKIE_MAGIC);
      forall q | q >= searchStart && q + |COOKIE_MAGIC| <= searchEnd
        ensures At(window.value, COOKIE_MAGIC, q - searchStart) == At(file, COOKIE_MAGIC, q)
      {
        assert window.value[q - searchStart..q - searchStart + 8] == file[q..q + 8];
      }
      if relative >= 0 {
        assert At(file, COOKIE_MAGIC, searchStart + relative);
        forall q | q > searchStart + relative ensures !At(file, COOKIE_MAGIC, q) {
          if q + 8 <= searchEnd { assert !At(window.value, COOKIE_MAGIC, q - searchStart); }
        }
        return Some(searchStart + relative);
      }
      forall q | q >= searchStart ensures !At(file, COOKIE_MAGIC, q) {
        if q + 8 <= searchEnd { assert !At(window.value, COOKIE_MAGIC, q - searchStart); }
      }
      if searchStart == 0 { break; }
      searchEnd := searchStart + |COOKIE_MAGIC| - 1;
    }
    return None;
  }
}
