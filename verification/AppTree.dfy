/** The v1 content digest of an app bundle: its framing, its traversal and its caps. */
module AppTree {
  import opened Bytes
  import opened Ordering
  import opened FileTree

  const MAXIMUM_APP_TREE_ENTRIES := 10_000
  const MAXIMUM_APP_FILE_BYTES := 64 * 1024 * 1024
  const MAXIMUM_APP_TOTAL_BYTES := 512 * 1024 * 1024
  const KIND_D: byte := 68
  const KIND_F: byte := 70

  /** Execute bits, length and SHA-256 of a regular file; a directory keeps only its execute bits. */
  datatype Facts = Facts(bits: nat, length: nat, digest: seq<byte>)
  type AppChild = Child<nat, Facts>

  // ---- framing -----------------------------------------------------------------------------

  datatype Record = DirRecord(path: seq<Name>, bits: nat) | FileRecord(path: seq<Name>, facts: Facts)

  function Bits(r: Record): nat { if r.DirRecord? then r.bits else r.facts.bits }

  /** The fixed-width fields hold the values: what to_bytes demands. */
  predicate Fits(r: Record) {
    |Join(r.path)| < 0x1_0000_0000 && Bits(r) < 0x1_0000
    && (r.FileRecord? ==> r.facts.length < 0x1_0000_0000_0000_0000 && |r.facts.digest| == 32)
  }

  /** _update_app_tree_entry, and for files the length and digest that follow it. */
  function Frame(r: Record): seq<byte> {
    [if r.DirRecord? then KIND_D else KIND_F] + BigEndian(|Join(r.path)|, 4) + Join(r.path) + BigEndian(Bits(r), 2)
    + if r.FileRecord? then BigEndian(r.facts.length, 8) + r.facts.digest else []
  }

  function FrameAll(records: seq<Record>): seq<byte> {
    if records == [] then [] else FrameAll(records[..|records| - 1]) + Frame(records[|records| - 1])
  }

  lemma {:induction false} FrameAllAppend(a: seq<Record>, b: seq<Record>)
    ensures FrameAll(a + b) == FrameAll(a) + FrameAll(b)
  {
    hide Frame;
    if b == [] {
      assert a + b == a;
    } else {
      assert (a + b)[..|a + b| - 1] == a + b[..|b| - 1];
      FrameAllAppend(a, b[..|b| - 1]);
    }
  }

  // ---- a decoder, and why the framing determines the records -------------------------------

  function TakeBytes(bytes: seq<byte>, count: nat): (r: Option<(seq<byte>, seq<byte>)>)
    ensures r.Some? ==> |r.value.1| + count == |bytes|
  {
    if |bytes| < count then None else Some((bytes[..count], bytes[count..]))
  }

  function TakeNumber(bytes: seq<byte>, width: nat): (r: Option<(nat, seq<byte>)>)
    ensures r.Some? ==> |r.value.1| + width == |bytes|
  {
    if |bytes| < width then None else Some((FromBigEndian(bytes[..width]), bytes[width..]))
  }

  /** One record off the front of a stream. */
  function Decode(bytes: seq<byte>): (r: Option<(Record, seq<byte>)>)
    ensures r.Some? ==> |r.value.1| < |bytes|
  {
    if bytes == [] then None
    else match TakeNumber(bytes[1..], 4)
      case None => None
      case Some((size, afterSize)) =>
        match TakeBytes(afterSize, size)
        case None => None
        case Some((path, afterPath)) =>
          match TakeNumber(afterPath, 2)
          case None => None
          case Some((bits, afterBits)) =>
            if bytes[0] == KIND_D then Some((DirRecord(Split(path), bits), afterBits))
            else match TakeNumber(afterBits, 8)
              case None => None
              case Some((length, afterLength)) =>
                match TakeBytes(afterLength, 32)
                case None => None
                case Some((digest, rest)) => Some((FileRecord(Split(path), Facts(bits, length, digest)), rest))
  }

  function DecodeAll(bytes: seq<byte>): Option<seq<Record>>
    decreases |bytes|
  {
    if bytes == [] then Some([])
    else match Decode(bytes)
      case None => None
      case Some((r, rest)) => match DecodeAll(rest) case None => None case Some(rs) => Some([r] + rs)
  }

  lemma TakeBytesBack(s: seq<byte>, rest: seq<byte>)
    ensures TakeBytes(s + rest, |s|) == Some((s, rest))
  {
    assert (s + rest)[..|s|] == s && (s + rest)[|s|..] == rest;
  }

  lemma TakeNumberBack(n: nat, width: nat, rest: seq<byte>)
    requires n < Pow256(width)
    ensures TakeNumber(BigEndian(n, width) + rest, width) == Some((n, rest))
  {
    BigEndianRoundTrip(n, width);
    TakeBytesBack(BigEndian(n, width), rest);
    assert (BigEndian(n, width) + rest)[..width] == BigEndian(n, width);
  }

  lemma FrameReadBack(r: Record, rest: seq<byte>)
    requires Fits(r) && ValidPath(r.path)
    ensures Decode(Frame(r) + rest) == Some((r, rest))
  {
    hide TakeBytes, TakeNumber, Join, Split;
    Widths();
    var path := Join(r.path);
    var tail := if r.FileRecord? then BigEndian(r.facts.length, 8) + (r.facts.digest + rest) else rest;
    var afterPath := BigEndian(Bits(r), 2) + tail;
    assert (Frame(r) + rest)[1..] == BigEndian(|path|, 4) + (path + afterPath);
    TakeNumberBack(|path|, 4, path + afterPath);
    TakeBytesBack(path, afterPath);
    TakeNumberBack(Bits(r), 2, tail);
    SplitJoin(r.path);
    if r.FileRecord? {
      TakeNumberBack(r.facts.length, 8, r.facts.digest + rest);
      TakeBytesBack(r.facts.digest, rest);
    }
  }

  /** The decoder recovers paths, kinds, execute bits, lengths and digests from the hashed bytes. */
  lemma {:induction false} DecodeUndoesFraming(records: seq<Record>)
    requires forall r :: r in records ==> Fits(r) && ValidPath(r.path)
    ensures DecodeAll(FrameAll(records)) == Some(records)
  {
    hide Decode, Frame;
    if records != [] {
      var first, later := records[0], records[1..];
      assert records == [first] + later;
      assert [first][..0] == [];
      FrameAllAppend([first], later);
      assert FrameAll([first]) == Frame(first);
      FrameReadBack(first, FrameAll(later));
      DecodeUndoesFraming(later);
    }
  }

  lemma FramingIsInjective(a: seq<Record>, b: seq<Record>)
    requires FrameAll(a) == FrameAll(b)
    requires forall r :: r in a || r in b ==> Fits(r) && ValidPath(r.path)
    ensures a == b
  {
    DecodeUndoesFraming(a);
    DecodeUndoesFraming(b);
  }

  // ---- what the traversal emits ------------------------------------------------------------

  function Dirs(children: seq<AppChild>): seq<AppChild> {
    if children == [] then []
    else
      var last := children[|children| - 1];
      Dirs(children[..|children| - 1]) + if last.node.Directory? then [last] else []
  }

  function Files(children: seq<AppChild>): seq<AppChild> {
    if children == [] then []
    else
      var last := children[|children| - 1];
      Files(children[..|children| - 1]) + if last.node.File? then [last] else []
  }

  function Head(path: seq<Name>, c: AppChild): seq<Record> {
    match c.node
    case Directory(bits, _) => [DirRecord(path + [c.name], bits)]
    case File(facts) => [FileRecord(path + [c.name], facts)]
    case Special => []
  }

  function Heads(path: seq<Name>, children: seq<AppChild>): seq<Record> {
    if children == [] then [] else Heads(path, children[..|children| - 1]) + Head(path, children[|children| - 1])
  }

  /** Directories first, then files, then the directories' own contents: the order of a top-down walk. */
  function Emit(path: seq<Name>, children: seq<AppChild>): seq<Record>
    decreases children, 1
  {
    Heads(path, Dirs(children)) + Heads(path, Files(children)) + EmitBelow(path, children)
  }

  function EmitBelow(path: seq<Name>, children: seq<AppChild>): seq<Record>
    decreases children, 0
  {
    if children == [] then []
    else
      var last := children[|children| - 1];
      EmitBelow(path, children[..|children| - 1])
      + if last.node.Directory? then Emit(path + [last.name], last.node.children) else []
  }

  function Stream(children: seq<AppChild>): seq<byte> { FrameAll(Emit([], children)) }

  lemma {:induction false} KindsOf(children: seq<AppChild>)
    ensures forall c :: c in Dirs(children) <==> c in children && c.node.Directory?
    ensures forall c :: c in Files(children) <==> c in children && c.node.File?
    ensures |Dirs(children)| + |Files(children)| <= |children|
    ensures |Dirs(children)| + |Files(children)| == |children| <==> forall c :: c in children ==> !c.node.Special?
  {
    if children != [] {
      var init, last := children[..|children| - 1], children[|children| - 1];
      KindsOf(init);
      assert children == init + [last];
    }
  }

  lemma {:induction false} BelowDirsOnly(path: seq<Name>, children: seq<AppChild>)
    ensures EmitBelow(path, Dirs(children)) == EmitBelow(path, children)
  {
    if children != [] {
      var init, last := children[..|children| - 1], children[|children| - 1];
      BelowDirsOnly(path, init);
      if last.node.Directory? {
        assert Dirs(children)[..|Dirs(children)| - 1] == Dirs(init);
        assert Dirs(children)[|Dirs(children)| - 1] == last;
      } else {
        assert Dirs(children) == Dirs(init);
      }
    }
  }

  /** A record below `path`. */
  predicate Under(path: seq<Name>, r: Record) { |path| < |r.path| && r.path[..|path|] == path }

  lemma {:induction false} HeadsUnder(path: seq<Name>, children: seq<AppChild>)
    ensures forall r :: r in Heads(path, children) ==> Under(path, r) && |r.path| == |path| + 1
    ensures forall r :: r in Heads(path, children) ==>
              exists c :: c in children && r.path == path + [c.name] && (r.DirRecord? <==> c.node.Directory?)
  {
    if children != [] {
      var init, last := children[..|children| - 1], children[|children| - 1];
      HeadsUnder(path, init);
      assert last in children && forall c :: c in init ==> c in children;
      assert forall r :: r in Head(path, last) ==> r.path == path + [last.name];
    }
  }

  lemma {:induction false} EmitUnder(path: seq<Name>, children: seq<AppChild>)
    ensures forall r :: r in Emit(path, children) ==> Under(path, r)
    decreases children, 1
  {
    HeadsUnder(path, Dirs(children));
    HeadsUnder(path, Files(children));
    BelowUnder(path, children);
  }

  lemma {:induction false} BelowUnder(path: seq<Name>, children: seq<AppChild>)
    ensures forall r :: r in EmitBelow(path, children) ==>
              Under(path, r) && |r.path| >= |path| + 2 && exists c :: c in children && c.name == r.path[|path|]
    decreases children, 0
  {
    if children != [] {
      var init, last := children[..|children| - 1], children[|children| - 1];
      BelowUnder(path, init);
      assert last in children && forall c :: c in init ==> c in children;
      if last.node.Directory? {
        EmitUnder(path + [last.name], last.node.children);
        forall r | r in Emit(path + [last.name], last.node.children)
          ensures Under(path, r) && |r.path| >= |path| + 2 && r.path[|path|] == last.name
        {
          assert r.path[..|path|] == r.path[..|path| + 1][..|path|] == path;
          assert r.path[|path|] == r.path[..|path| + 1][|path|];
        }
      }
    }
  }

  // ---- equal records come from equal trees -------------------------------------------------

  /** No symlink, device, FIFO or socket anywhere. */
  ghost predicate Plain(children: seq<AppChild>)
    decreases children
  {
    forall c :: c in children ==> !c.node.Special? && (c.node.Directory? ==> Plain(c.node.children))
  }

  lemma {:induction false} HeadsDetermineFiles(path: seq<Name>, a: seq<AppChild>, b: seq<AppChild>)
    requires (forall c :: c in a ==> c.node.File?) && (forall c :: c in b ==> c.node.File?)
    requires Heads(path, a) == Heads(path, b)
    ensures a == b
  {
    if a != [] && b != [] {
      var x, y := a[|a| - 1], b[|b| - 1];
      assert Heads(path, a)[|Heads(path, a)| - 1] == Head(path, x)[0];
      assert Heads(path, b)[|Heads(path, b)| - 1] == Head(path, y)[0];
      assert (path + [x.name])[|path|] == (path + [y.name])[|path|];
      assert Heads(path, a)[..|Heads(path, a)| - 1] == Heads(path, a[..|a| - 1]);
      assert Heads(path, b)[..|Heads(path, b)| - 1] == Heads(path, b[..|b| - 1]);
      HeadsDetermineFiles(path, a[..|a| - 1], b[..|b| - 1]);
      assert a == a[..|a| - 1] + [x] && b == b[..|b| - 1] + [y];
    }
  }

  lemma {:induction false} LastHeads(path: seq<Name>, a: seq<AppChild>, b: seq<AppChild>)
    requires a != [] && b != [] && a[|a| - 1].node.Directory? && b[|b| - 1].node.Directory?
    requires Heads(path, a) == Heads(path, b)
    ensures a[|a| - 1].name == b[|b| - 1].name && a[|a| - 1].node.directory == b[|b| - 1].node.directory
    ensures Heads(path, a[..|a| - 1]) == Heads(path, b[..|b| - 1])
  {
    var x, y, heads := a[|a| - 1], b[|b| - 1], Heads(path, a);
    assert heads[|heads| - 1] == Head(path, x)[0] == Head(path, y)[0];
    assert (path + [x.name])[|path|] == (path + [y.name])[|path|];
    assert heads[..|heads| - 1] == Heads(path, a[..|a| - 1]);
    assert heads[..|heads| - 1] == Heads(path, b[..|b| - 1]);
  }

  /** The last directory's block can be cut off what lies below `path`. */
  lemma LastBlocks(path: seq<Name>, a: seq<AppChild>, b: seq<AppChild>)
    requires a != [] && b != [] && a[|a| - 1].node.Directory? && b[|b| - 1].node.Directory?
    requires a[|a| - 1].name == b[|b| - 1].name
    requires Increasing(Names(a)) && Increasing(Names(b)) && EmitBelow(path, a) == EmitBelow(path, b)
    ensures var x, y := a[|a| - 1], b[|b| - 1];
      Emit(path + [x.name], x.node.children) == Emit(path + [y.name], y.node.children)
    ensures EmitBelow(path, a[..|a| - 1]) == EmitBelow(path, b[..|b| - 1])
  {
    hide Emit;
    var x, y := a[|a| - 1], b[|b| - 1];
    BlockOfLast(path, a);
    BlockOfLast(path, b);
    CutIsUnique(EmitBelow(path, a[..|a| - 1]), Emit(path + [x.name], x.node.children),
                EmitBelow(path, b[..|b| - 1]), Emit(path + [y.name], y.node.children),
                (r: Record) => |r.path| <= |path| || r.path[|path|] != x.name);
  }

  /** Directory heads and everything below them determine the directories. */
  lemma {:induction false} RecordsDetermineDirs(path: seq<Name>, a: seq<AppChild>, b: seq<AppChild>, whole: seq<AppChild>)
    requires forall c :: c in a ==> c in whole && c.node.Directory? && Canonical(c.node.children) && Plain(c.node.children)
    requires forall c :: c in b ==> c.node.Directory? && Canonical(c.node.children) && Plain(c.node.children)
    requires Increasing(Names(a)) && Increasing(Names(b))
    requires Heads(path, a) == Heads(path, b) && EmitBelow(path, a) == EmitBelow(path, b)
    ensures a == b
    decreases whole, |a|
  {
    hide Emit, EmitBelow, Canonical, Plain, Increasing;
    if a != [] && b != [] {
      var x, y, initA, initB := a[|a| - 1], b[|b| - 1], a[..|a| - 1], b[..|b| - 1];
      assert x in a && y in b;
      LastHeads(path, a, b);
      LastBlocks(path, a, b);
      RecordsDetermineTree(path + [x.name], x.node.children, y.node.children);
      InitNames(a);
      InitNames(b);
      RecordsDetermineDirs(path, initA, initB, whole);
      assert a == initA + [x] && b == initB + [y];
    }
  }

  lemma InitNames(a: seq<AppChild>)
    requires a != [] && Increasing(Names(a))
    ensures Increasing(Names(a[..|a| - 1]))
    ensures forall c :: c in a[..|a| - 1] ==> c.name != a[|a| - 1].name
  {
    var init := a[..|a| - 1];
    assert Names(init) == Names(a)[..|a| - 1];
    forall c | c in init ensures c.name != a[|a| - 1].name {
      var i :| 0 <= i < |init| && init[i] == c;
      NamesDistinct(a, i, |a| - 1);
    }
  }

  /** What the last directory contributes below `path` is told apart by its name. */
  lemma BlockOfLast(path: seq<Name>, a: seq<AppChild>)
    requires a != [] && a[|a| - 1].node.Directory? && Increasing(Names(a))
    ensures var x := a[|a| - 1];
      (forall r :: r in EmitBelow(path, a[..|a| - 1]) ==> |r.path| > |path| && r.path[|path|] != x.name)
      && (forall r :: r in Emit(path + [x.name], x.node.children) ==> |r.path| > |path| && r.path[|path|] == x.name)
  {
    var x := a[|a| - 1];
    InitNames(a);
    BelowUnder(path, a[..|a| - 1]);
    EmitUnder(path + [x.name], x.node.children);
    forall r | r in Emit(path + [x.name], x.node.children) ensures |r.path| > |path| && r.path[|path|] == x.name {
      assert r.path[|path|] == r.path[..|path| + 1][|path|];
    }
  }

  lemma {:induction false} RecordsDetermineTree(path: seq<Name>, a: seq<AppChild>, b: seq<AppChild>)
    requires Canonical(a) && Canonical(b) && Plain(a) && Plain(b)
    requires Emit(path, a) == Emit(path, b)
    ensures a == b
    decreases a, |a| + 1
  {
    KindsOf(a);
    KindsOf(b);
    SplitEmission(path, a, b);
    HeadsDetermineFiles(path, Files(a), Files(b));
    BelowDirsOnly(path, a);
    BelowDirsOnly(path, b);
    DirsIncreasing(a);
    DirsIncreasing(b);
    RecordsDetermineDirs(path, Dirs(a), Dirs(b), a);
    SameEntriesSameListing(a, b);
  }

  lemma SplitEmission(path: seq<Name>, a: seq<AppChild>, b: seq<AppChild>)
    requires Emit(path, a) == Emit(path, b)
    ensures Heads(path, Dirs(a)) == Heads(path, Dirs(b)) && Heads(path, Files(a)) == Heads(path, Files(b))
    ensures EmitBelow(path, a) == EmitBelow(path, b)
  {
    HeadKinds(path, a);
    HeadKinds(path, b);
    BelowUnder(path, a);
    BelowUnder(path, b);
    CutIsUnique(Heads(path, Dirs(a)) + Heads(path, Files(a)), EmitBelow(path, a),
                Heads(path, Dirs(b)) + Heads(path, Files(b)), EmitBelow(path, b),
                (r: Record) => |r.path| == |path| + 1);
    CutIsUnique(Heads(path, Dirs(a)), Heads(path, Files(a)), Heads(path, Dirs(b)), Heads(path, Files(b)),
                (r: Record) => r.DirRecord?);
  }

  lemma HeadKinds(path: seq<Name>, a: seq<AppChild>)
    ensures forall r :: r in Heads(path, Dirs(a)) ==> r.DirRecord? && |r.path| == |path| + 1
    ensures forall r :: r in Heads(path, Files(a)) ==> r.FileRecord? && |r.path| == |path| + 1
  {
    KindsOf(a);
    HeadsUnder(path, Dirs(a));
    HeadsUnder(path, Files(a));
  }

  lemma {:induction false} DirsIncreasing(a: seq<AppChild>)
    requires Increasing(Names(a))
    ensures Increasing(Names(Dirs(a)))
  {
    if a != [] {
      var init, last := a[..|a| - 1], a[|a| - 1];
      InitNames(a);
      DirsIncreasing(init);
      KindsOf(init);
      if last.node.Directory? {
        assert Names(Dirs(a)) == Names(Dirs(init)) + [last.name];
        forall i | 0 <= i < |Dirs(init)| ensures Less(Dirs(init)[i].name, last.name) {
          assert Dirs(init)[i] in init;
          var j :| 0 <= j < |init| && init[j] == Dirs(init)[i];
          assert Names(a)[j] == init[j].name && Names(a)[|a| - 1] == last.name;
        }
      } else {
        assert Dirs(a) == Dirs(init);
      }
    }
  }

  lemma {:induction false} EmittedPathsValid(path: seq<Name>, children: seq<AppChild>)
    requires Canonical(children) && forall i :: 0 <= i < |path| ==> ValidName(path[i])
    ensures forall r :: r in Emit(path, children) ==> ValidPath(r.path)
    decreases children, 1
  {
    KindsOf(children);
    HeadsUnder(path, Dirs(children));
    HeadsUnder(path, Files(children));
    BelowPathsValid(path, children, children);
  }

  lemma {:induction false} BelowPathsValid(path: seq<Name>, children: seq<AppChild>, whole: seq<AppChild>)
    requires Canonical(whole) && forall i :: 0 <= i < |path| ==> ValidName(path[i])
    requires forall c :: c in children ==> c in whole
    ensures forall r :: r in EmitBelow(path, children) ==> ValidPath(r.path)
    decreases whole, 0, |children|
  {
    if children != [] {
      var init, last := children[..|children| - 1], children[|children| - 1];
      assert last in children && forall c :: c in init ==> c in children;
      BelowPathsValid(path, init, whole);
      if last.node.Directory? {
        EmittedPathsValid(path + [last.name], last.node.children);
      }
    }
  }

  /** Two different plain trees never feed the digest the same bytes. */
  lemma StreamDeterminesTree(a: seq<AppChild>, b: seq<AppChild>)
    requires Canonical(a) && Canonical(b) && Plain(a) && Plain(b)
    requires forall r :: r in Emit([], a) || r in Emit([], b) ==> Fits(r)
    ensures Stream(a) == Stream(b) <==> a == b
  {
    if Stream(a) == Stream(b) {
      EmittedPathsValid([], a);
      EmittedPathsValid([], b);
      FramingIsInjective(Emit([], a), Emit([], b));
      RecordsDetermineTree([], a, b);
    }
  }
}
