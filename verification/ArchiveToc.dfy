/** The table of contents of a one-file PyInstaller archive: its cookie, its parser and its language. */
module ArchiveToc {
  import opened Bytes
  import opened StreamScan

  const ENTRY_LENGTH := 18             // struct "!IIIIBc"
  const COOKIE_LENGTH := 88            // struct "!8sIIII64s"
  const MAXIMUM_ARCHIVE_TOC_BYTES := 16 * 1024 * 1024
  const MAXIMUM_NATIVE_PAYLOAD_BYTES := 256 * 1024 * 1024
  const MAXIMUM_NATIVE_PAYLOAD_COUNT := 4096
  const LOWER_O: byte := 111
  const DOT_DOT: seq<byte> := [46, 46]

  datatype Payload = Payload(offset: nat, compressed: nat, uncompressed: nat, flag: byte, typecode: byte)
  datatype Entry = Entry(name: seq<byte>, payload: Payload)

  predicate Continuation(b: byte) { 0x80 <= b <= 0xBF }

  /** Well-formed UTF-8 (table 3-7 of the Unicode Standard), which is what a strict decode accepts. */
  predicate Utf8(s: seq<byte>) {
    if s == [] then true
    else if s[0] < 0x80 then Utf8(s[1..])
    else if 0xC2 <= s[0] <= 0xDF then |s| >= 2 && Continuation(s[1]) && Utf8(s[2..])
    else if 0xE0 <= s[0] <= 0xEF then
      |s| >= 3 && Continuation(s[1]) && Continuation(s[2]) && (s[0] == 0xE0 ==> 0xA0 <= s[1])
      && (s[0] == 0xED ==> s[1] <= 0x9F) && Utf8(s[3..])
    else if 0xF0 <= s[0] <= 0xF4 then
      |s| >= 4 && Continuation(s[1]) && Continuation(s[2]) && Continuation(s[3])
      && (s[0] == 0xF0 ==> 0x90 <= s[1]) && (s[0] == 0xF4 ==> s[1] <= 0x8F) && Utf8(s[4..])
    else false
  }

  /** A relative name without parent components that survives the removal of trailing NULs. */
  predicate GoodName(name: seq<byte>) {
    name != [] && name[|name| - 1] != 0 && Utf8(name) && name[0] != SLASH && DOT_DOT !in Split(name)
  }

  predicate GoodPayload(p: Payload, tocOffset: nat) {
    p.flag <= 1 && 0 < p.compressed <= MAXIMUM_NATIVE_PAYLOAD_BYTES
    && 0 < p.uncompressed <= MAXIMUM_NATIVE_PAYLOAD_BYTES
    && p.offset + p.compressed <= tocOffset && p.typecode < 128 && p.typecode != LOWER_O
  }

  predicate GoodEntry(e: Entry, tocOffset: nat) {
    GoodName(e.name) && GoodPayload(e.payload, tocOffset)
  }

  // ---- writing -------------------------------------------------------------------------

  function Zeros(count: nat): seq<byte> { seq(count, _ => 0) }

  function EntrySize(e: Entry, padding: nat): nat { ENTRY_LENGTH + |e.name| + padding }

  function Header(size: nat, p: Payload): (s: seq<byte>)
    ensures |s| == ENTRY_LENGTH
  {
    BigEndian(size, 4) + BigEndian(p.offset, 4) + BigEndian(p.compressed, 4) + BigEndian(p.uncompressed, 4)
    + [p.flag, p.typecode]
  }

  /** One entry as a writer lays it out, with any number of NULs after the name. */
  function Render(e: Entry, padding: nat): (s: seq<byte>)
    ensures |s| == EntrySize(e, padding)
  {
    Header(EntrySize(e, padding), e.payload) + e.name + Zeros(padding)
  }

  function RenderAll(entries: seq<Entry>, paddings: seq<nat>): seq<byte>
    requires |entries| == |paddings|
  {
    if entries == [] then [] else Render(entries[0], paddings[0]) + RenderAll(entries[1..], paddings[1..])
  }

  // ---- reading -------------------------------------------------------------------------

  function StripNul(s: seq<byte>): (r: seq<byte>)
    ensures r == [] || r[|r| - 1] != 0
    ensures |r| <= |s| && s == r + Zeros(|s| - |r|)
  {
    if s == [] || s[|s| - 1] != 0 then s else StripNul(s[..|s| - 1])
  }

  /** The payload that the fixed fields after the length describe. */
  function PayloadIn(toc: seq<byte>): Payload
    requires |toc| >= ENTRY_LENGTH
  {
    Payload(FromBigEndian(toc[4..8]), FromBigEndian(toc[8..12]), FromBigEndian(toc[12..16]), toc[16], toc[17])
  }

  /** The entry at the front of `toc` with its length, if every check on it passes. */
  function EntryAt(toc: seq<byte>, tocOffset: nat): Option<(Entry, nat)> {
    if |toc| < ENTRY_LENGTH then None
    else
      var size := FromBigEndian(toc[0..4]);
      if size < ENTRY_LENGTH + 1 || size > |toc| then None
      else
        var e := Entry(StripNul(toc[ENTRY_LENGTH..size]), PayloadIn(toc));
        if GoodEntry(e, tocOffset) then Some((e, size)) else None
  }

  function Names(entries: seq<Entry>): seq<seq<byte>> {
    seq(|entries|, i requires 0 <= i < |entries| => entries[i].name)
  }

  /** What the parser makes of the rest of the table once it has read `seen`. */
  function Parse(toc: seq<byte>, tocOffset: nat, seen: seq<Entry>): Option<seq<Entry>>
    decreases |toc|
  {
    if toc == [] then Some(seen)
    else if |seen| >= MAXIMUM_NATIVE_PAYLOAD_COUNT then None
    else match EntryAt(toc, tocOffset)
      case None => None
      case Some((e, size)) =>
        if e.name in Names(seen) then None else Parse(toc[size..], tocOffset, seen + [e])
  }

  /** The archive_entries dictionary that a list of entries builds. */
  function Table(entries: seq<Entry>): map<seq<byte>, Payload> {
    if entries == [] then map[]
    else Table(entries[..|entries| - 1])[entries[|entries| - 1].name := entries[|entries| - 1].payload]
  }

  lemma {:induction false} TableKeys(entries: seq<Entry>)
    ensures forall name :: name in Table(entries) <==> name in Names(entries)
  {
    if entries != [] {
      var init := entries[..|entries| - 1];
      TableKeys(init);
      assert Names(entries) == Names(init) + [entries[|entries| - 1].name];
    }
  }

  // ---- the two directions for one entry --------------------------------------------------

  lemma HeaderFields(size: nat, p: Payload, tail: seq<byte>)
    requires size < Pow256(4) && p.offset < Pow256(4) && p.compressed < Pow256(4) && p.uncompressed < Pow256(4)
    ensures var toc := Header(size, p) + tail; FromBigEndian(toc[0..4]) == size && PayloadIn(toc) == p
  {
    var toc := Header(size, p) + tail;
    assert toc[0..4] == BigEndian(size, 4) && toc[4..8] == BigEndian(p.offset, 4);
    assert toc[8..12] == BigEndian(p.compressed, 4) && toc[12..16] == BigEndian(p.uncompressed, 4);
    BigEndianRoundTrip(size, 4);
    BigEndianRoundTrip(p.offset, 4);
    BigEndianRoundTrip(p.compressed, 4);
    BigEndianRoundTrip(p.uncompressed, 4);
  }

  lemma {:induction false} StripPadded(name: seq<byte>, padding: nat)
    requires name != [] && name[|name| - 1] != 0
    ensures StripNul(name + Zeros(padding)) == name
  {
    if padding == 0 {
      assert name + Zeros(0) == name;
    } else {
      var padded := name + Zeros(padding);
      assert padded[..|padded| - 1] == name + Zeros(padding - 1);
      StripPadded(name, padding - 1);
    }
  }

  lemma Middle(a: seq<byte>, b: seq<byte>, c: seq<byte>)
    ensures (a + b + c)[|a|..|a| + |b|] == b && (a + b + c)[|a| + |b|..] == c
  {
  }

  lemma ReadBack(e: Entry, padding: nat, rest: seq<byte>, tocOffset: nat)
    requires GoodEntry(e, tocOffset) && tocOffset < Pow256(4) && EntrySize(e, padding) < Pow256(4)
    ensures EntryAt(Render(e, padding) + rest, tocOffset) == Some((e, EntrySize(e, padding)))
    ensures (Render(e, padding) + rest)[EntrySize(e, padding)..] == rest
  {
    Widths();
    var size := EntrySize(e, padding);
    var toc, header, field := Render(e, padding) + rest, Header(size, e.payload), e.name + Zeros(padding);
    assert toc == header + (field + rest);
    HeaderFields(size, e.payload, field + rest);
    assert toc == header + field + rest;
    Middle(header, field, rest);
    StripPadded(e.name, padding);
  }

  lemma HeaderOf(toc: seq<byte>)
    requires |toc| >= ENTRY_LENGTH
    ensures toc[..ENTRY_LENGTH] == Header(FromBigEndian(toc[0..4]), PayloadIn(toc))
  {
    FromBigEndianRoundTrip(toc[0..4]);
    FromBigEndianRoundTrip(toc[4..8]);
    FromBigEndianRoundTrip(toc[8..12]);
    FromBigEndianRoundTrip(toc[12..16]);
    assert toc[..18] == toc[0..4] + toc[4..8] + toc[8..12] + toc[12..16] + [toc[16], toc[17]];
  }

  lemma AcceptedIsRendered(toc: seq<byte>, tocOffset: nat, e: Entry, size: nat) returns (padding: nat)
    requires EntryAt(toc, tocOffset) == Some((e, size))
    ensures 0 < size <= |toc| && size == EntrySize(e, padding) && toc[..size] == Render(e, padding)
    ensures GoodEntry(e, tocOffset)
  {
    HeaderOf(toc);
    padding := size - ENTRY_LENGTH - |e.name|;
    assert toc[..size] == toc[..ENTRY_LENGTH] + toc[ENTRY_LENGTH..size];
  }

  // ---- the language of the parser --------------------------------------------------------

  predicate DistinctNames(entries: seq<Entry>) {
    forall i, j :: 0 <= i < j < |entries| ==> entries[i].name != entries[j].name
  }

  /** `toc` is a writing of the entries after the first `from`, all of them valid and distinctly named. */
  predicate Writes(toc: seq<byte>, tocOffset: nat, entries: seq<Entry>, from: nat, paddings: seq<nat>) {
    from <= |entries| && |entries| - from == |paddings| && |entries| <= MAXIMUM_NATIVE_PAYLOAD_COUNT
    && DistinctNames(entries)
    && (forall i :: from <= i < |entries| ==> GoodEntry(entries[i], tocOffset))
    && toc == RenderAll(entries[from..], paddings)
  }

  lemma FreshName(entries: seq<Entry>, from: nat)
    requires from < |entries| && DistinctNames(entries)
    ensures entries[from].name !in Names(entries[..from])
  {
    forall i | 0 <= i < from ensures Names(entries[..from])[i] != entries[from].name {
      assert Names(entries[..from])[i] == entries[i].name;
    }
  }

  lemma {:induction false} ParseReadsWriting(toc: seq<byte>, tocOffset: nat, entries: seq<Entry>, from: nat,
                                             paddings: seq<nat>)
    requires Writes(toc, tocOffset, entries, from, paddings)
    requires tocOffset < Pow256(4) && |toc| < Pow256(4)
    ensures Parse(toc, tocOffset, entries[..from]) == Some(entries)
    decreases |entries| - from
  {
    hide EntryAt, GoodEntry, Render;
    if from == |entries| {
      assert entries[from..] == [] && entries[..from] == entries;
    } else {
      var e, rest := entries[from], RenderAll(entries[from + 1..], paddings[1..]);
      assert entries[from..][1..] == entries[from + 1..];
      assert toc == Render(e, paddings[0]) + rest;
      ReadBack(e, paddings[0], rest, tocOffset);
      FreshName(entries, from);
      assert entries[..from] + [e] == entries[..from + 1];
      ParseReadsWriting(rest, tocOffset, entries, from + 1, paddings[1..]);
    }
  }

  lemma StaysDistinct(seen: seq<Entry>, e: Entry)
    requires DistinctNames(seen) && e.name !in Names(seen)
    ensures DistinctNames(seen + [e])
  {
    forall i | 0 <= i < |seen| ensures seen[i].name != e.name {
      assert Names(seen)[i] == seen[i].name;
    }
  }

  lemma PrependWriting(toc: seq<byte>, tocOffset: nat, entries: seq<Entry>, from: nat, size: nat, padding: nat,
                       paddings: seq<nat>)
    requires from < |entries| && size <= |toc| && toc[..size] == Render(entries[from], padding)
    requires GoodEntry(entries[from], tocOffset)
    requires Writes(toc[size..], tocOffset, entries, from + 1, paddings)
    ensures Writes(toc, tocOffset, entries, from, [padding] + paddings)
  {
    hide GoodEntry, Render;
    assert entries[from..][1..] == entries[from + 1..];
    assert ([padding] + paddings)[1..] == paddings;
    assert toc == toc[..size] + toc[size..];
  }

  lemma {:induction false} ParseAcceptsOnlyWritings(toc: seq<byte>, tocOffset: nat, seen: seq<Entry>,
                                                    entries: seq<Entry>) returns (paddings: seq<nat>)
    requires Parse(toc, tocOffset, seen) == Some(entries)
    requires DistinctNames(seen) && |seen| <= MAXIMUM_NATIVE_PAYLOAD_COUNT
    ensures |seen| <= |entries| && seen == entries[..|seen|]
    ensures Writes(toc, tocOffset, entries, |seen|, paddings)
    decreases |toc|
  {
    hide Render, EntryAt, GoodEntry, StripNul, EntrySize;
    paddings := [];
    if toc != [] {
      var (e, size) := EntryAt(toc, tocOffset).value;
      var padding := AcceptedIsRendered(toc, tocOffset, e, size);
      StaysDistinct(seen, e);
      var later := ParseAcceptsOnlyWritings(toc[size..], tocOffset, seen + [e], entries);
      assert entries[|seen|] == (seen + [e])[|seen|] == e;
      assert seen == (seen + [e])[..|seen|] == entries[..|seen|];
      PrependWriting(toc, tocOffset, entries, |seen|, size, padding, later);
      paddings := [padding] + later;
    }
  }

  /**
   * The parser accepts exactly the writings of at most 4096 valid, distinctly named entries, with
   * any padding, and returns the entries that were written; nothing is left over.
   */
  lemma ParserLanguage(toc: seq<byte>, tocOffset: nat, entries: seq<Entry>)
    requires tocOffset < Pow256(4) && |toc| <= MAXIMUM_ARCHIVE_TOC_BYTES
    ensures Parse(toc, tocOffset, []) == Some(entries)
       <==> exists paddings :: Writes(toc, tocOffset, entries, 0, paddings)
  {
    Widths();
    if Parse(toc, tocOffset, []) == Some(entries) {
      var paddings := ParseAcceptsOnlyWritings(toc, tocOffset, [], entries);
    }
    if paddings :| Writes(toc, tocOffset, entries, 0, paddings) {
      assert entries[..0] == [];
      ParseReadsWriting(toc, tocOffset, entries, 0, paddings);
    }
  }

  /** Two writings of tables are equal only if they write the same entries. */
  lemma WritingsAreUnambiguous(toc: seq<byte>, tocOffset: nat, a: seq<Entry>, b: seq<Entry>,
                               padA: seq<nat>, padB: seq<nat>)
    requires tocOffset < Pow256(4) && |toc| <= MAXIMUM_ARCHIVE_TOC_BYTES
    requires Writes(toc, tocOffset, a, 0, padA) && Writes(toc, tocOffset, b, 0, padB)
    ensures a == b
  {
    ParserLanguage(toc, tocOffset, a);
    ParserLanguage(toc, tocOffset, b);
  }

  // ---- the loop and its caller -----------------------------------------------------------

  /** The fields of the entry at the front of the table, once every check on it passes. */
  method ReadEntry(rest: seq<byte>, tocOffset: nat) returns (r: Option<(Entry, nat)>)
    ensures r == EntryAt(rest, tocOffset)
  {
    if |rest| < ENTRY_LENGTH { return None; }
    var entryLength := FromBigEndian(rest[0..4]);
    var payload := PayloadIn(rest);
    if entryLength < ENTRY_LENGTH + 1 || entryLength > |rest| { return None; }
    if !GoodPayload(payload, tocOffset) { return None; }
    var name := StripNul(rest[ENTRY_LENGTH..entryLength]);
    if !GoodName(name) { return None; }
    r := Some((Entry(name, payload), entryLength));
  }

  lemma EntryFits(rest: seq<byte>, tocOffset: nat)
    ensures EntryAt(rest, tocOffset).Some? ==> 0 < EntryAt(rest, tocOffset).value.1 <= |rest|
  {
  }

  lemma TableNext(seen: seq<Entry>, e: Entry)
    ensures Table(seen + [e]) == Table(seen)[e.name := e.payload]
  {
    assert (seen + [e])[..|seen|] == seen;
  }

  /** The table-of-contents loop of extract_pyinstaller_native_payloads. */
  method ParseTable(toc: seq<byte>, tocOffset: nat) returns (r: Option<map<seq<byte>, Payload>>)
    ensures r == match Parse(toc, tocOffset, []) case None => None case Some(entries) => Some(Table(entries))
  {
    hide EntryAt, Table, Names;
    var tocPosition := 0;
    var archiveEntries: map<seq<byte>, Payload> := map[];
    ghost var seen: seq<Entry> := [];
    EmptyTable();
    while tocPosition < |toc|
      invariant 0 <= tocPosition <= |toc|
      invariant Parse(toc, tocOffset, []) == Parse(toc[tocPosition..], tocOffset, seen)
      invariant archiveEntries == Table(seen) && |archiveEntries| == |seen|
      decreases |toc| - tocPosition
    {
      var rest := toc[tocPosition..];
      if |archiveEntries| >= MAXIMUM_NATIVE_PAYLOAD_COUNT { return None; }
      EntryFits(rest, tocOffset);
      var read := ReadEntry(rest, tocOffset);
      if read.None? { return None; }
      var (entry, entryLength) := read.value;
      TableKeys(seen);
      if entry.name in archiveEntries { return None; }
      TableNext(seen, entry);
      archiveEntries := archiveEntries[entry.name := entry.payload];
      seen := seen + [entry];
      assert rest[entryLength..] == toc[tocPosition + entryLength..];
      tocPosition := tocPosition + entryLength;
    }
    assert toc[tocPosition..] == [];
    return Some(archiveEntries);
  }

  lemma EmptyTable()
    ensures Table([]) == map[]
  {
  }

  // ---- the archive around the table -------------------------------------------------------

  datatype Archive = Archive(start: nat, tocOffset: nat, tocLength: nat, cookieOffset: nat, entries: seq<Entry>)

  /** Everything before the first NUL of the fixed library-name field. */
  function UntilNul(s: seq<byte>): seq<byte> {
    if s == [] || s[0] == 0 then [] else [s[0]] + UntilNul(s[1..])
  }

  function Cookie(length: nat, tocOffset: nat, tocLength: nat, version: seq<byte>, library: seq<byte>): seq<byte> {
    COOKIE_MAGIC + BigEndian(length, 4) + BigEndian(tocOffset, 4) + BigEndian(tocLength, 4) + version + library
  }

  /** What a writer of archives promises about a file: last cookie, its fields, and the table it points to. */
  predicate Describes(file: seq<byte>, a: Archive, version: seq<byte>, library: seq<byte>, paddings: seq<nat>) {
    var length := a.cookieOffset + COOKIE_LENGTH - a.start;
    |version| == 4 && |library| == 64 && COOKIE_LENGTH <= length < 0x1_0000_0000
    && a.cookieOffset + COOKIE_LENGTH <= |file|
    && file[a.cookieOffset..a.cookieOffset + COOKIE_LENGTH]
       == Cookie(length, a.tocOffset, a.tocLength, version, library)
    && 0 < a.tocLength <= MAXIMUM_ARCHIVE_TOC_BYTES && a.tocOffset < 0x1_0000_0000
    && a.start + a.tocOffset + a.tocLength <= a.cookieOffset
    && Writes(file[a.start + a.tocOffset..a.start + a.tocOffset + a.tocLength], a.tocOffset, a.entries, 0, paddings)
    && UntilNul(library) in Names(a.entries)
  }

  /** Every listed payload lies inside the archive region, in front of the table, and no two share a name. */
  predicate Contained(a: Archive, file: seq<byte>) {
    a.start + a.tocOffset + a.tocLength <= a.cookieOffset && a.cookieOffset + COOKIE_LENGTH <= |file|
    && |a.entries| <= MAXIMUM_NATIVE_PAYLOAD_COUNT && DistinctNames(a.entries)
    && forall i :: 0 <= i < |a.entries| ==>
         0 < a.entries[i].payload.compressed
         && a.start + a.entries[i].payload.offset + a.entries[i].payload.compressed <= a.start + a.tocOffset
  }

  /** The archive that the cookie at `cookieOffset` opens, if every check passes. */
  function OpenAt(file: seq<byte>, cookieOffset: nat, libraryAllowed: seq<byte> -> bool): Option<Archive> {
    if cookieOffset + COOKIE_LENGTH > |file| then None
    else
      var cookie := file[cookieOffset..cookieOffset + COOKIE_LENGTH];
      var archiveLength, tocOffset := FromBigEndian(cookie[8..12]), FromBigEndian(cookie[12..16]);
      var tocLength := FromBigEndian(cookie[16..20]);
      var archiveStart := cookieOffset + COOKIE_LENGTH - archiveLength;
      if cookie[0..8] != COOKIE_MAGIC || archiveLength < COOKIE_LENGTH || archiveStart < 0
         || tocLength <= 0 || tocLength > MAXIMUM_ARCHIVE_TOC_BYTES
         || tocOffset + tocLength > cookieOffset - archiveStart
         || !libraryAllowed(UntilNul(cookie[24..88])) then None
      else
        match Parse(file[archiveStart + tocOffset..archiveStart + tocOffset + tocLength], tocOffset, [])
        case None => None
        case Some(entries) =>
          if UntilNul(cookie[24..88]) !in Names(entries) then None
          else Some(Archive(archiveStart, tocOffset, tocLength, cookieOffset, entries))
  }

  /** extract_pyinstaller_native_payloads from the cookie to the lookup of the Python library. */
  method OpenArchiveAt(file: seq<byte>, cookieOffset: nat, libraryAllowed: seq<byte> -> bool)
    returns (r: Option<(nat, nat, map<seq<byte>, Payload>)>)
    ensures match OpenAt(file, cookieOffset, libraryAllowed) case None => r.None?
            case Some(a) => r == Some((a.start, a.tocOffset, Table(a.entries)))
  {
    hide Parse, FromBigEndian, UntilNul, Table;
    var cookieRead := ReadExactAt(file, COOKIE_LENGTH, cookieOffset);
    if cookieRead.None? { return None; }
    var cookie := cookieRead.value;
    var archiveLength, tocOffset := FromBigEndian(cookie[8..12]), FromBigEndian(cookie[12..16]);
    var tocLength := FromBigEndian(cookie[16..20]);
    var archiveStart := cookieOffset + COOKIE_LENGTH - archiveLength;
    if cookie[0..8] != COOKIE_MAGIC || archiveLength < COOKIE_LENGTH || archiveStart < 0
       || tocLength <= 0 || tocLength > MAXIMUM_ARCHIVE_TOC_BYTES
       || tocOffset + tocLength > cookieOffset - archiveStart { return None; }
    var libraryName := UntilNul(cookie[24..88]);
    if !libraryAllowed(libraryName) { return None; }
    var tocRead := ReadExactAt(file, tocLength, archiveStart + tocOffset);
    var table := ParseTable(tocRead.value, tocOffset);
    if table.None? { return None; }
    ghost var entries := Parse(tocRead.value, tocOffset, []).value;
    TableKeys(entries);
    if libraryName !in table.value { return None; }
    return Some((archiveStart, tocOffset, table.value));
  }

  /** The archive is opened at the last cookie in the file, and only there. */
  method OpenArchive(file: seq<byte>, libraryAllowed: seq<byte> -> bool)
    returns (r: Option<(nat, nat, map<seq<byte>, Payload>)>)
    ensures Occurs(file, COOKIE_MAGIC) ==>
              exists c: nat :: At(file, COOKIE_MAGIC, c) && (forall q :: q > c ==> !At(file, COOKIE_MAGIC, q))
                && match OpenAt(file, c, libraryAllowed) case None => r.None?
                   case Some(a) => r == Some((a.start, a.tocOffset, Table(a.entries)))
    ensures !Occurs(file, COOKIE_MAGIC) ==> r.None?
  {
    hide OpenAt, Table;
    var cookieAt := FindPyinstallerCookie(file);
    if cookieAt.None? { return None; }
    r := OpenArchiveAt(file, cookieAt.value, libraryAllowed);
  }

  lemma CookieFields(length: nat, tocOffset: nat, tocLength: nat, version: seq<byte>, library: seq<byte>)
    requires length < 0x1_0000_0000 && tocOffset < 0x1_0000_0000 && tocLength < 0x1_0000_0000
    requires |version| == 4 && |library| == 64
    ensures var c := Cookie(length, tocOffset, tocLength, version, library);
      |c| == COOKIE_LENGTH && c[0..8] == COOKIE_MAGIC && FromBigEndian(c[8..12]) == length
      && FromBigEndian(c[12..16]) == tocOffset && FromBigEndian(c[16..20]) == tocLength && c[24..88] == library
  {
    Widths();
    var c := Cookie(length, tocOffset, tocLength, version, library);
    assert c[8..12] == BigEndian(length, 4) && c[12..16] == BigEndian(tocOffset, 4);
    assert c[16..20] == BigEndian(tocLength, 4);
    BigEndianRoundTrip(length, 4);
    BigEndianRoundTrip(tocOffset, 4);
    BigEndianRoundTrip(tocLength, 4);
  }

  lemma CookieOf(c: seq<byte>)
    requires |c| == COOKIE_LENGTH && c[0..8] == COOKIE_MAGIC
    ensures c == Cookie(FromBigEndian(c[8..12]), FromBigEndian(c[12..16]), FromBigEndian(c[16..20]), c[20..24], c[24..88])
    ensures FromBigEndian(c[8..12]) < 0x1_0000_0000 && FromBigEndian(c[12..16]) < 0x1_0000_0000
  {
    Widths();
    FromBigEndianRoundTrip(c[8..12]);
    FromBigEndianRoundTrip(c[12..16]);
    FromBigEndianRoundTrip(c[16..20]);
    assert c == c[0..8] + c[8..12] + c[12..16] + c[16..20] + c[20..24] + c[24..88];
  }

  lemma OpenedIsDescribed(file: seq<byte>, a: Archive, allowed: seq<byte> -> bool)
    returns (version: seq<byte>, library: seq<byte>, paddings: seq<nat>)
    requires OpenAt(file, a.cookieOffset, allowed) == Some(a)
    ensures Describes(file, a, version, library, paddings) && allowed(UntilNul(library))
    ensures Contained(a, file)
  {
    hide Parse, FromBigEndian, UntilNul, Cookie, RenderAll, GoodName;
    var cookie := file[a.cookieOffset..a.cookieOffset + COOKIE_LENGTH];
    CookieOf(cookie);
    var toc := file[a.start + a.tocOffset..a.start + a.tocOffset + a.tocLength];
    paddings := ParseAcceptsOnlyWritings(toc, a.tocOffset, [], a.entries);
    version, library := cookie[20..24], cookie[24..88];
  }

  lemma DescribedOpens(file: seq<byte>, a: Archive, allowed: seq<byte> -> bool,
                       version: seq<byte>, library: seq<byte>, paddings: seq<nat>)
    requires Describes(file, a, version, library, paddings) && allowed(UntilNul(library))
    ensures OpenAt(file, a.cookieOffset, allowed) == Some(a)
  {
    hide Parse, FromBigEndian, UntilNul, Cookie, Writes;
    CookieFields(a.cookieOffset + COOKIE_LENGTH - a.start, a.tocOffset, a.tocLength, version, library);
    Widths();
    ParserLanguage(file[a.start + a.tocOffset..a.start + a.tocOffset + a.tocLength], a.tocOffset, a.entries);
  }

  /** A file opens as an archive exactly when a writer could have made it so, and then nothing escapes its bounds. */
  lemma ArchiveLanguage(file: seq<byte>, a: Archive, allowed: seq<byte> -> bool)
    ensures OpenAt(file, a.cookieOffset, allowed) == Some(a)
       <==> exists version, library, paddings ::
              Describes(file, a, version, library, paddings) && allowed(UntilNul(library))
    ensures OpenAt(file, a.cookieOffset, allowed) == Some(a) ==> Contained(a, file)
  {
    hide *;
    if OpenAt(file, a.cookieOffset, allowed) == Some(a) {
      var version, library, paddings := OpenedIsDescribed(file, a, allowed);
    }
    if version, library, paddings :| Describes(file, a, version, library, paddings) && allowed(UntilNul(library)) {
      DescribedOpens(file, a, allowed, version, library, paddings);
    }
  }
}
