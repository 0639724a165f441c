/** The release gate's app tree digest: a preorder walk whose framing carries file metadata. */
module GateTree {
  import opened Bytes
  import opened FileTree

  const MAXIMUM_APP_TREE_ENTRIES := 10_000
  const MAXIMUM_APP_RELATIVE_PATH_BYTES := 4096
  const KIND_D: byte := 68
  const KIND_F: byte := 70

  type Metadata = seq<byte>

  /** A file keeps its metadata text and its SHA-256, a directory only its metadata text. */
  datatype Facts = Facts(metadata: Metadata, digest: seq<byte>)
  type GateChild = Child<Metadata, Facts>

  datatype Record = DirRecord(path: seq<Name>, metadata: Metadata)
                  | FileRecord(path: seq<Name>, metadata: Metadata, digest: seq<byte>)

  predicate Fits(r: Record) {
    |Join(r.path)| < 0x1_0000_0000 && |r.metadata| < 0x1_0000_0000 && (r.FileRecord? ==> |r.digest| == 32)
  }

  /** What tree_digest receives for one entry. */
  function Frame(r: Record): seq<byte> {
    BigEndian(|Join(r.path)|, 4) + Join(r.path) + BigEndian(|r.metadata|, 4) + r.metadata
    + if r.DirRecord? then [KIND_D] else [KIND_F] + r.digest
  }

  function FrameAll(records: seq<Record>): seq<byte> {
    if records == [] then [] else Frame(records[0]) + FrameAll(records[1..])
  }

  lemma {:induction false} FrameAllAppend(a: seq<Record>, b: seq<Record>)
    ensures FrameAll(a + b) == FrameAll(a) + FrameAll(b)
  {
    hide Frame;
    if a == [] {
      assert a + b == b;
    } else {
      assert (a + b)[1..] == a[1..] + b;
      FrameAllAppend(a[1..], b);
    }
  }

  // ---- the decoder -------------------------------------------------------------------------

  /** A field with a four-byte length in front. */
  function TakeField(bytes: seq<byte>): (r: Option<(seq<byte>, seq<byte>)>)
    ensures r.Some? ==> |r.value.1| < |bytes|
  {
    if |bytes| < 4 then None
    else
      var size := FromBigEndian(bytes[..4]);
      if size > |bytes| - 4 then None else Some((bytes[4..4 + size], bytes[4 + size..]))
  }

  function Decode(bytes: seq<byte>): (r: Option<(Record, seq<byte>)>)
    ensures r.Some? ==> |r.value.1| < |bytes|
  {
    match TakeField(bytes)
    case None => None
    case Some((path, afterPath)) =>
      match TakeField(afterPath)
      case None => None
      case Some((metadata, rest)) =>
        if rest == [] then None
        else if rest[0] == KIND_D then Some((DirRecord(Split(path), metadata), rest[1..]))
        else if |rest| < 33 then None
        else Some((FileRecord(Split(path), metadata, rest[1..33]), rest[33..]))
  }

  function DecodeAll(bytes: seq<byte>): Option<seq<Record>>
    decreases |bytes|
  {
    if bytes == [] then Some([])
    else match Decode(bytes)
      case None => None
      case Some((r, rest)) => match DecodeAll(rest) case None => None case Some(rs) => Some([r] + rs)
  }

  lemma TakeFieldBack(field: seq<byte>, rest: seq<byte>)
    requires |field| < 0x1_0000_0000
    ensures TakeField(BigEndian(|field|, 4) + (field + rest)) == Some((field, rest))
  {
    hide BigEndian, FromBigEndian;
    Widths();
    BigEndianRoundTrip(|field|, 4);
    var size := BigEndian(|field|, 4);
    var bytes := size + (field + rest);
    assert bytes[..4] == size && bytes[4..] == field + rest;
    assert bytes[4..4 + |field|] == bytes[4..][..|field|] == field;
    assert bytes[4 + |field|..] == bytes[4..][|field|..] == rest;
  }

  lemma FrameReadBack(r: Record, rest: seq<byte>)
    requires Fits(r) && ValidPath(r.path)
    ensures Decode(Frame(r) + rest) == Some((r, rest))
  {
    hide TakeField, Join, Split, BigEndian;
    var tail := (if r.DirRecord? then [KIND_D] else [KIND_F] + r.digest) + rest;
    var path := Join(r.path);
    var afterPath := BigEndian(|r.metadata|, 4) + (r.metadata + tail);
    assert Frame(r) + rest == BigEndian(|path|, 4) + (path + afterPath);
    TakeFieldBack(path, afterPath);
    TakeFieldBack(r.metadata, tail);
    SplitJoin(r.path);
    if r.FileRecord? {
      assert tail[1..33] == r.digest && tail[33..] == rest;
    }
  }

  /** The decoder recovers paths, metadata, kinds and digests from the hashed bytes. */
  lemma {:induction false} DecodeUndoesFraming(records: seq<Record>)
    requires forall i :: 0 <= i < |records| ==> Fits(records[i]) && ValidPath(records[i].path)
    ensures DecodeAll(FrameAll(records)) == Some(records)
  {
    hide Decode, Frame, Fits, ValidPath;
    if records != [] {
      FrameReadBack(records[0], FrameAll(records[1..]));
      assert [records[0]] + records[1..] == records;
      DecodeUndoesFraming(records[1..]);
    }
  }

  lemma FramingIsInjective(a: seq<Record>, b: seq<Record>)
    requires FrameAll(a) == FrameAll(b)
    requires forall i :: 0 <= i < |a| ==> Fits(a[i]) && ValidPath(a[i].path)
    requires forall i :: 0 <= i < |b| ==> Fits(b[i]) && ValidPath(b[i].path)
    ensures a == b
  {
    DecodeUndoesFraming(a);
    DecodeUndoesFraming(b);
  }

  // ---- the preorder ------------------------------------------------------------------------

  /** One entry, and for a directory everything below it. */
  function Block(path: seq<Name>, c: GateChild): seq<Record>
    decreases c
  {
    match c.node
    case Directory(metadata, children) =>
      [DirRecord(path + [c.name], metadata)] + Emit(path + [c.name], children)
    case File(facts) => [FileRecord(path + [c.name], facts.metadata, facts.digest)]
    case Special => []
  }

  function Emit(path: seq<Name>, children: seq<GateChild>): seq<Record>
    decreases children
  {
    if children == [] then [] else Block(path, children[0]) + Emit(path, children[1..])
  }

  ghost predicate Plain(children: seq<GateChild>)
    decreases children
  {
    forall c :: c in children ==> !c.node.Special? && (c.node.Directory? ==> Plain(c.node.children))
  }

  lemma {:induction false} EmitUnder(path: seq<Name>, children: seq<GateChild>)
    ensures forall r :: r in Emit(path, children) ==>
              |path| < |r.path| && r.path[..|path|] == path && exists c :: c in children && c.name == r.path[|path|]
    decreases children
  {
    if children != [] {
      var first := children[0];
      EmitUnder(path, children[1..]);
      BlockUnder(path, first);
      assert first in children && forall c :: c in children[1..] ==> c in children;
    }
  }

  lemma {:induction false} BlockUnder(path: seq<Name>, c: GateChild)
    ensures forall r :: r in Block(path, c) ==> |path| < |r.path| && r.path[..|path|] == path && r.path[|path|] == c.name
    ensures c.node.Directory? ==> forall r :: r in Emit(path + [c.name], c.node.children) ==> |r.path| > |path| + 1
    decreases c
  {
    if c.node.Directory? {
      EmitUnder(path + [c.name], c.node.children);
      forall r | r in Emit(path + [c.name], c.node.children)
        ensures |r.path| > |path| + 1 && r.path[..|path|] == path && r.path[|path|] == c.name
      {
        assert r.path[..|path|] == r.path[..|path| + 1][..|path|];
        assert r.path[|path|] == r.path[..|path| + 1][|path|];
      }
    }
  }

  lemma {:induction false} BlocksDetermineEntry(path: seq<Name>, x: GateChild, y: GateChild)
    requires !x.node.Special? && !y.node.Special?
    requires x.node.Directory? ==> Canonical(x.node.children) && Plain(x.node.children)
    requires y.node.Directory? ==> Canonical(y.node.children) && Plain(y.node.children)
    requires Block(path, x) == Block(path, y)
    ensures x == y
    decreases x, 0
  {
    hide Canonical, Plain;
    assert Block(path, x)[0] == Block(path, y)[0];
    assert (path + [x.name])[|path|] == (path + [y.name])[|path|];
    if x.node.Directory? {
      assert Block(path, x)[1..] == Emit(path + [x.name], x.node.children);
      assert Block(path, y)[1..] == Emit(path + [y.name], y.node.children);
      RecordsDetermineTree(path + [x.name], x.node.children, y.node.children);
    }
  }

  lemma FirstBlocks(path: seq<Name>, a: seq<GateChild>, b: seq<GateChild>)
    requires a != [] && b != [] && Canonical(a) && Canonical(b) && Emit(path, a) == Emit(path, b)
    requires !a[0].node.Special? && !b[0].node.Special?
    ensures Block(path, a[0]) == Block(path, b[0]) && Emit(path, a[1..]) == Emit(path, b[1..])
  {
    hide Canonical;
    BlockUnder(path, a[0]);
    BlockUnder(path, b[0]);
    EmitUnder(path, a[1..]);
    EmitUnder(path, b[1..]);
    CanonicalTail(a);
    CanonicalTail(b);
    assert Emit(path, a)[0] == Block(path, a[0])[0] && Emit(path, b)[0] == Block(path, b[0])[0];
    assert Block(path, a[0])[0].path[|path|] == a[0].name && Block(path, b[0])[0].path[|path|] == b[0].name;
    CutIsUnique(Block(path, a[0]), Emit(path, a[1..]), Block(path, b[0]), Emit(path, b[1..]),
                (r: Record) => |path| < |r.path| && r.path[|path|] == a[0].name);
  }

  lemma {:induction false} RecordsDetermineTree(path: seq<Name>, a: seq<GateChild>, b: seq<GateChild>)
    requires Canonical(a) && Canonical(b) && Plain(a) && Plain(b)
    requires Emit(path, a) == Emit(path, b)
    ensures a == b
    decreases a, 1
  {
    if a != [] && b != [] {
      assert a[0] in a && b[0] in b;
      FirstBlocks(path, a, b);
      BlocksDetermineEntry(path, a[0], b[0]);
      CanonicalTail(a);
      CanonicalTail(b);
      RecordsDetermineTree(path, a[1..], b[1..]);
      assert a == [a[0]] + a[1..] && b == [b[0]] + b[1..];
    } else {
      NonEmptyEmits(path, a);
      NonEmptyEmits(path, b);
    }
  }

  lemma NonEmptyEmits(path: seq<Name>, a: seq<GateChild>)
    requires Plain(a)
    ensures Emit(path, a) == [] <==> a == []
  {
    if a != [] { assert a[0] in a; }
  }

  lemma {:induction false} EmittedPathsValid(path: seq<Name>, children: seq<GateChild>, whole: seq<GateChild>)
    requires Canonical(whole) && forall i :: 0 <= i < |path| ==> ValidName(path[i])
    requires forall c :: c in children ==> c in whole
    ensures forall r :: r in Emit(path, children) ==> ValidPath(r.path)
    decreases whole, |children|
  {
    if children != [] {
      var first := children[0];
      assert first in whole;
      EmittedPathsValid(path, children[1..], whole);
      if first.node.Directory? {
        EmittedPathsValid(path + [first.name], first.node.children, first.node.children);
      }
    }
  }

  function Stream(children: seq<GateChild>): seq<byte> { FrameAll(Emit([], children)) }

  /** Two different plain trees never feed the gate's digest the same bytes. */
  lemma StreamDeterminesTree(a: seq<GateChild>, b: seq<GateChild>)
    requires Canonical(a) && Canonical(b) && Plain(a) && Plain(b)
    requires forall r :: r in Emit([], a) || r in Emit([], b) ==> Fits(r)
    ensures Stream(a) == Stream(b) <==> a == b
  {
    hide Emit, Frame, FrameAll, Fits, ValidPath, Canonical, Plain;
    if Stream(a) == Stream(b) {
      EmittedPathsValid([], a, a);
      EmittedPathsValid([], b, b);
      FramingIsInjective(Emit([], a), Emit([], b));
      RecordsDetermineTree([], a, b);
    }
  }

  // ---- the traversal -----------------------------------------------------------------------

  class Walk {
    var stream: seq<byte>
    var entryCount: nat

    constructor ()
      ensures stream == [] && entryCount == 0
    {
      stream, entryCount := [], 0;
    }
  }

  /** Entries at every depth. */
  function Entries(children: seq<GateChild>): nat
    decreases children
  {
    if children == [] then 0 else EntryCount(children[0]) + Entries(children[1..])
  }

  function EntryCount(c: GateChild): nat
    decreases c
  {
    1 + if c.node.Directory? then Entries(c.node.children) else 0
  }

  /** Every path of the walk keeps inside the path cap. */
  predicate PathsInCap(records: seq<Record>) {
    forall i :: 0 <= i < |records| ==> |Join(records[i].path)| <= MAXIMUM_APP_RELATIVE_PATH_BYTES
  }

  lemma PathsInCapAppend(a: seq<Record>, b: seq<Record>)
    ensures PathsInCap(a + b) <==> PathsInCap(a) && PathsInCap(b)
  {
    if PathsInCap(a + b) {
      assert forall i :: 0 <= i < |a| ==> a[i] == (a + b)[i];
      assert forall i :: 0 <= i < |b| ==> b[i] == (a + b)[|a| + i];
    }
  }

  /** What the walk accepts: plain trees whose entry count and path lengths are inside the caps. */
  ghost predicate Passes(path: seq<Name>, children: seq<GateChild>, counted: nat) {
    Plain(children) && (children == [] || counted + Entries(children) <= MAXIMUM_APP_TREE_ENTRIES)
    && PathsInCap(Emit(path, children))
  }

  ghost predicate EntryPasses(path: seq<Name>, c: GateChild, counted: nat) {
    counted + 1 <= MAXIMUM_APP_TREE_ENTRIES && |Join(path + [c.name])| <= MAXIMUM_APP_RELATIVE_PATH_BYTES
    && !c.node.Special? && (c.node.Directory? ==> Passes(path + [c.name], c.node.children, counted + 1))
  }

  /** A block passes when its plain entry fits and its paths do. */
  lemma EntryPassesBlock(path: seq<Name>, c: GateChild, counted: nat)
    ensures EntryPasses(path, c, counted)
       <==> !c.node.Special? && (c.node.Directory? ==> Plain(c.node.children))
            && counted + EntryCount(c) <= MAXIMUM_APP_TREE_ENTRIES && PathsInCap(Block(path, c))
  {
    hide Plain, Join, PathsInCap;
    var relative := path + [c.name];
    match c.node
    case Directory(metadata, below) =>
      PathsInCapAppend([DirRecord(relative, metadata)], Emit(relative, below));
      OnePathInCap(DirRecord(relative, metadata));
    case File(facts) => OnePathInCap(FileRecord(relative, facts.metadata, facts.digest));
    case Special =>
  }

  lemma PassesNext(path: seq<Name>, children: seq<GateChild>, counted: nat)
    requires children != []
    ensures Passes(path, children, counted)
       <==> EntryPasses(path, children[0], counted)
            && Passes(path, children[1..], counted + EntryCount(children[0]))
  {
    hide Plain, PathsInCap, EntryPasses, EntryCount, Block;
    PlainNext(children);
    PathsInCapAppend(Block(path, children[0]), Emit(path, children[1..]));
    EntryPassesBlock(path, children[0], counted);
    NothingLeft(path);
  }

  lemma OnePathInCap(r: Record)
    ensures PathsInCap([r]) <==> |Join(r.path)| <= MAXIMUM_APP_RELATIVE_PATH_BYTES
  {
    assert [r][0] == r;
  }

  lemma PlainNext(children: seq<GateChild>)
    requires children != []
    ensures var c := children[0];
      Plain(children) <==> !c.node.Special? && (c.node.Directory? ==> Plain(c.node.children)) && Plain(children[1..])
  {
    assert children[0] in children;
    assert forall c :: c in children <==> c == children[0] || c in children[1..];
  }

  /** One turn of the loop in hash_directory. */
  method HashEntry(path: seq<Name>, entry: GateChild, scan: seq<Name> -> seq<Name>, walk: Walk) returns (ok: bool)
    requires entry.node.Directory? ==> Canonical(entry.node.children)
    requires ValidName(entry.name) && Scans(scan)
    modifies walk
    ensures ok <==> EntryPasses(path, entry, old(walk.entryCount))
    ensures ok ==> walk.entryCount == old(walk.entryCount) + EntryCount(entry)
    ensures ok ==> walk.stream == old(walk.stream) + FrameAll(Block(path, entry))
    decreases entry, 1
  {
    hide Frame, FrameAll, Emit, Entries, Passes, Join;
    walk.entryCount := walk.entryCount + 1;
    if walk.entryCount > MAXIMUM_APP_TREE_ENTRIES { return false; }
    var relativePath := path + [entry.name];
    JoinNotEmpty(path, entry.name);
    var relativeBytes := Join(relativePath);
    if relativeBytes == [] || |relativeBytes| > MAXIMUM_APP_RELATIVE_PATH_BYTES { return false; }
    ghost var start := walk.stream;
    BlockFrames(path, entry);
    match entry.node {
      case Directory(metadata, below) =>
        var frame := Frame(DirRecord(relativePath, metadata));
        walk.stream := walk.stream + frame;
        ok := HashDirectory(relativePath, below, scan, walk);
        Regroup(start, frame, FrameAll(Emit(relativePath, below)));
      case File(facts) =>
        walk.stream := walk.stream + Frame(FileRecord(relativePath, facts.metadata, facts.digest));
        ok := true;
      case Special => ok := false;
    }
  }

  /**
   * hash_directory on an app tree, every file's digest taken as given: whatever the order of the
   * scans it succeeds exactly when the tree is plain and inside the entry and path caps, and then
   * it has counted every entry once and hashed exactly the canonical stream.
   */
  method HashDirectory(path: seq<Name>, children: seq<GateChild>, scan: seq<Name> -> seq<Name>, walk: Walk)
    returns (ok: bool)
    requires Canonical(children) && Scans(scan)
    modifies walk
    ensures ok <==> Passes(path, children, old(walk.entryCount))
    ensures ok ==> walk.entryCount == old(walk.entryCount) + Entries(children)
    ensures ok ==> walk.stream == old(walk.stream) + FrameAll(Emit(path, children))
    decreases children, 0
  {
    hide Frame, FrameAll, Emit, Passes, EntryPasses, Join;
    AnyScanSortsAlike(children, scan(Names(children)));
    var names := SortNames(scan(Names(children)));
    ghost var start, fed, counted := walk.stream, [], walk.entryCount;
    NothingLeft(path);
    assert children[0..] == children;
    for i := 0 to |names|
      invariant walk.stream == start + fed
      invariant fed + FrameAll(Emit(path, children[i..])) == FrameAll(Emit(path, children))
      invariant walk.entryCount + Entries(children[i..]) == counted + Entries(children)
      invariant Passes(path, children, counted) <==> Passes(path, children[i..], walk.entryCount)
    {
      StatAt(children, i);
      var entry := Stat(children, names[i]);
      assert children[i..][0] == entry && children[i..][1..] == children[i + 1..];
      PassesNext(path, children[i..], walk.entryCount);
      EmitNext(path, children[i..]);
      ok := HashEntry(path, entry, scan, walk);
      if !ok { return; }
      Regroup(start, fed, FrameAll(Block(path, entry)));
      Regroup(fed, FrameAll(Block(path, entry)), FrameAll(Emit(path, children[i + 1..])));
      fed := fed + FrameAll(Block(path, entry));
    }
    assert children[|names|..] == [] && fed + [] == fed;
    return true;
  }

  lemma NothingLeft(path: seq<Name>)
    ensures FrameAll(Emit(path, [])) == [] && Entries([]) == 0
    ensures forall counted: nat :: Passes(path, [], counted)
  {
  }

  lemma JoinNotEmpty(path: seq<Name>, name: Name)
    requires name != []
    ensures Join(path + [name]) != []
    decreases |path|
  {
    if path != [] {
      assert (path + [name])[1..] == path[1..] + [name];
      JoinNotEmpty(path[1..], name);
    }
  }

  lemma EmitNext(path: seq<Name>, children: seq<GateChild>)
    requires children != []
    ensures FrameAll(Emit(path, children)) == FrameAll(Block(path, children[0])) + FrameAll(Emit(path, children[1..]))
  {
    hide Block, FrameAll;
    FrameAllAppend(Block(path, children[0]), Emit(path, children[1..]));
  }

  lemma BlockFrames(path: seq<Name>, c: GateChild)
    ensures match c.node
      case Directory(metadata, below) =>
        FrameAll(Block(path, c)) == Frame(DirRecord(path + [c.name], metadata)) + FrameAll(Emit(path + [c.name], below))
      case File(facts) =>
        FrameAll(Block(path, c)) == Frame(FileRecord(path + [c.name], facts.metadata, facts.digest))
      case Special => true
  {
    hide Frame, Emit;
  }
}
