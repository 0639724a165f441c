/** The bounded traversal that feeds an app tree to its digest. */
module AppTraversal {
  import opened Bytes
  import opened Ordering
  import opened FileTree
  import opened AppTree

  // ---- what the caps measure ---------------------------------------------------------------

  /** Entries, regular files and file bytes at every depth. */
  datatype Tally = Tally(entries: nat, files: nat, bytes: nat) {
    function Plus(t: Tally): Tally { Tally(entries + t.entries, files + t.files, bytes + t.bytes) }
    predicate AtMost(t: Tally) { entries <= t.entries && files <= t.files && bytes <= t.bytes }
  }

  function TallyOf(c: AppChild): Tally {
    match c.node
    case Directory(_, children) => Tally(1, 0, 0).Plus(TallyAll(children))
    case File(facts) => Tally(1, 1, facts.length)
    case Special => Tally(1, 0, 0)
  }

  function TallyAll(children: seq<AppChild>): Tally {
    if children == [] then Tally(0, 0, 0)
    else TallyAll(children[..|children| - 1]).Plus(TallyOf(children[|children| - 1]))
  }

  /** Only directories and files, and no file above the per-file cap. */
  ghost predicate Admissible(children: seq<AppChild>)
    decreases children
  {
    forall c :: c in children ==>
      !c.node.Special? && (c.node.Directory? ==> Admissible(c.node.children))
      && (c.node.File? ==> c.node.file.length <= MAXIMUM_APP_FILE_BYTES)
  }

  lemma {:induction false} AdmissibleIsPlain(children: seq<AppChild>)
    requires Admissible(children)
    ensures Plain(children)
    decreases children
  {
    forall c | c in children && c.node.Directory? ensures Plain(c.node.children) {
      AdmissibleIsPlain(c.node.children);
    }
  }

  /** The same tally, taken in the order of the traversal: own entries, own files, then the directories below. */
  function FilesTally(files: seq<AppChild>): (t: Tally)
    ensures t.entries == 0
  {
    if files == [] then Tally(0, 0, 0)
    else FilesTally(files[..|files| - 1]).Plus(
           if files[|files| - 1].node.File? then Tally(0, 1, files[|files| - 1].node.file.length) else Tally(0, 0, 0))
  }

  function BelowTally(dirs: seq<AppChild>): Tally {
    if dirs == [] then Tally(0, 0, 0)
    else BelowTally(dirs[..|dirs| - 1]).Plus(
           if dirs[|dirs| - 1].node.Directory? then TallyAll(dirs[|dirs| - 1].node.children) else Tally(0, 0, 0))
  }

  lemma FilesTallyNext(files: seq<AppChild>, c: AppChild)
    requires c.node.File?
    ensures FilesTally(files + [c]) == FilesTally(files).Plus(Tally(0, 1, c.node.file.length))
  {
    assert (files + [c])[..|files|] == files;
  }

  lemma BelowTallyNext(dirs: seq<AppChild>, c: AppChild)
    requires c.node.Directory?
    ensures BelowTally(dirs + [c]) == BelowTally(dirs).Plus(TallyAll(c.node.children))
  {
    assert (dirs + [c])[..|dirs|] == dirs;
  }

  function Ordered(children: seq<AppChild>): Tally {
    var own, below := FilesTally(Files(children)), BelowTally(Dirs(children));
    Tally(|children| + below.entries, own.files + below.files, own.bytes + below.bytes)
  }

  lemma OrderedNext(children: seq<AppChild>)
    requires children != []
    ensures Ordered(children) == Ordered(children[..|children| - 1]).Plus(TallyOf(children[|children| - 1]))
  {
    hide FilesTally, BelowTally, TallyAll, Dirs, Files;
    ListNext(children);
    var init, last := children[..|children| - 1], children[|children| - 1];
    match last.node
    case Directory(_, below) => BelowTallyNext(Dirs(init), last);
    case File(_) => FilesTallyNext(Files(init), last);
    case Special =>
  }

  lemma {:induction false} TallyInOrder(children: seq<AppChild>)
    ensures TallyAll(children) == Ordered(children)
  {
    hide TallyAll, TallyOf, Ordered;
    if children == [] {
      assert Ordered([]) == Tally(0, 0, 0) == TallyAll([]) by { NoTally(); }
    } else {
      ListNext(children);
      OrderedNext(children);
      TallyInOrder(children[..|children| - 1]);
    }
  }

  lemma ListNext(children: seq<AppChild>)
    ensures children == [] ==> TallyAll(children) == Tally(0, 0, 0) && Dirs(children) == [] && Files(children) == []
    ensures children != [] ==>
              var init, last := children[..|children| - 1], children[|children| - 1];
              TallyAll(children) == TallyAll(init).Plus(TallyOf(last))
              && Dirs(children) == (if last.node.Directory? then Dirs(init) + [last] else Dirs(init))
              && Files(children) == (if last.node.File? then Files(init) + [last] else Files(init))
  {
    hide TallyOf;
  }

  lemma NoTally()
    ensures FilesTally([]) == Tally(0, 0, 0) && BelowTally([]) == Tally(0, 0, 0)
    ensures Ordered([]) == Tally(0, 0, 0) && TallyAll([]) == Tally(0, 0, 0)
  {
  }

  lemma {:induction false} FilesTallyGrows(files: seq<AppChild>, i: nat)
    requires i <= |files|
    ensures FilesTally(files[..i]).AtMost(FilesTally(files))
    decreases |files|
  {
    if i < |files| {
      FilesTallyGrows(files[..|files| - 1], i);
      assert files[..|files| - 1][..i] == files[..i];
    } else {
      assert files[..i] == files;
    }
  }

  lemma {:induction false} BelowTallyGrows(dirs: seq<AppChild>, i: nat)
    requires i <= |dirs|
    ensures BelowTally(dirs[..i]).AtMost(BelowTally(dirs))
    decreases |dirs|
  {
    if i < |dirs| {
      BelowTallyGrows(dirs[..|dirs| - 1], i);
      assert dirs[..|dirs| - 1][..i] == dirs[..i];
    } else {
      assert dirs[..i] == dirs;
    }
  }

  // ---- the mutable parts -------------------------------------------------------------------

  /** The bytes handed to the hash so far. */
  class HashInput {
    var stream: seq<byte>

    constructor ()
      ensures stream == []
    {
      stream := [];
    }

    method Update(data: seq<byte>)
      modifies this
      ensures stream == old(stream) + data
    {
      stream := stream + data;
    }
  }

  class Counters {
    var entryCount: nat
    var fileCount: nat
    var totalFileBytes: nat

    function Value(): Tally
      reads this
    {
      Tally(entryCount, fileCount, totalFileBytes)
    }

    constructor ()
      ensures Value() == Tally(0, 0, 0)
    {
      entryCount, fileCount, totalFileBytes := 0, 0, 0;
    }
  }

  /** The tally stays inside the entry and total caps. */
  predicate InCaps(t: Tally) {
    t.entries <= MAXIMUM_APP_TREE_ENTRIES && t.bytes <= MAXIMUM_APP_TOTAL_BYTES
  }

  // ---- the loops of one directory ----------------------------------------------------------

  /** Collecting names fails exactly when the directory alone would break the entry cap. */
  method ListNames(listed: seq<Name>, entryCount: nat) returns (r: Option<seq<Name>>)
    requires entryCount <= MAXIMUM_APP_TREE_ENTRIES
    ensures r == if entryCount + |listed| <= MAXIMUM_APP_TREE_ENTRIES then Some(SortNames(listed)) else None
  {
    var entryNames: seq<Name> := [];
    for i := 0 to |listed|
      invariant entryNames == listed[..i] && entryCount + i <= MAXIMUM_APP_TREE_ENTRIES
    {
      if entryCount + |entryNames| + 1 > MAXIMUM_APP_TREE_ENTRIES { return None; }
      entryNames := entryNames + [listed[i]];
    }
    assert listed[..|listed|] == listed;
    return Some(SortNames(entryNames));
  }

  /** Sorting entries into directories and files fails exactly on anything else. */
  method Classify(children: seq<AppChild>, names: seq<Name>)
    returns (r: Option<(seq<AppChild>, seq<AppChild>)>)
    requires Increasing(Names(children)) && names == Names(children)
    ensures r.Some? <==> forall c :: c in children ==> !c.node.Special?
    ensures r.Some? ==> r.value == (Dirs(children), Files(children))
  {
    var directoryEntries, fileEntries: seq<AppChild> := [], [];
    for i := 0 to |names|
      invariant directoryEntries == Dirs(children[..i]) && fileEntries == Files(children[..i])
      invariant forall c :: c in children[..i] ==> !c.node.Special?
    {
      StatAt(children, i);
      var entry := Stat(children, names[i]);
      assert children[..i + 1][..i] == children[..i];
      if entry.node.Directory? {
        directoryEntries := directoryEntries + [entry];
      } else if entry.node.File? {
        fileEntries := fileEntries + [entry];
      } else {
        return None;
      }
    }
    assert children[..|names|] == children;
    return Some((directoryEntries, fileEntries));
  }

  /** The D entries of one directory. */
  method HashDirectoryEntries(path: seq<Name>, dirs: seq<AppChild>, input: HashInput, counters: Counters)
    returns (ok: bool)
    requires forall i :: 0 <= i < |dirs| ==> dirs[i].node.Directory?
    modifies input, counters
    ensures ok <==> old(counters.entryCount) + |dirs| <= MAXIMUM_APP_TREE_ENTRIES || dirs == []
    ensures ok ==> counters.Value() == old(counters.Value()).Plus(Tally(|dirs|, 0, 0))
    ensures ok ==> input.stream == old(input.stream) + FrameAll(Heads(path, dirs))
  {
    hide Frame, FrameAll, Heads;
    ghost var start, fed := input.stream, [];
    NoHeads(path);
    for i := 0 to |dirs|
      invariant counters.entryCount == old(counters.entryCount) + i
      invariant counters.fileCount == old(counters.fileCount)
      invariant counters.totalFileBytes == old(counters.totalFileBytes)
      invariant i > 0 ==> counters.entryCount <= MAXIMUM_APP_TREE_ENTRIES
      invariant input.stream == start + fed && fed == FrameAll(Heads(path, dirs[..i]))
    {
      counters.entryCount := counters.entryCount + 1;
      if counters.entryCount > MAXIMUM_APP_TREE_ENTRIES { return false; }
      var entry := dirs[i];
      var frame := Frame(DirRecord(path + [entry.name], entry.node.directory));
      input.Update(frame);
      HeadsNext(path, dirs, i);
      Regroup(start, fed, frame);
      fed := fed + frame;
    }
    assert dirs[..|dirs|] == dirs;
    return true;
  }

  lemma NoHeads(path: seq<Name>)
    ensures FrameAll(Heads(path, [])) == []
  {
  }

  lemma HeadsNext(path: seq<Name>, cs: seq<AppChild>, i: nat)
    requires i < |cs| && !cs[i].node.Special?
    ensures FrameAll(Heads(path, cs[..i + 1])) == FrameAll(Heads(path, cs[..i])) + Frame(Head(path, cs[i])[0])
  {
    hide Frame;
    assert cs[..i + 1][..i] == cs[..i];
    var before, now := Heads(path, cs[..i]), Heads(path, cs[..i + 1]);
    assert now == before + Head(path, cs[i]) && now[..|now| - 1] == before;
  }

  function Least(a: int, b: int): int { if a < b then a else b }

  /** The F entries of one directory; the per-file and total caps are checked before each file is hashed. */
  method HashFileEntries(path: seq<Name>, files: seq<AppChild>, input: HashInput, counters: Counters)
    returns (ok: bool)
    requires forall i :: 0 <= i < |files| ==> files[i].node.File?
    requires counters.totalFileBytes <= MAXIMUM_APP_TOTAL_BYTES
    modifies input, counters
    ensures ok <==> (files == [] || old(counters.entryCount) + |files| <= MAXIMUM_APP_TREE_ENTRIES)
                    && old(counters.totalFileBytes) + FilesTally(files).bytes <= MAXIMUM_APP_TOTAL_BYTES
                    && forall i :: 0 <= i < |files| ==> files[i].node.file.length <= MAXIMUM_APP_FILE_BYTES
    ensures ok ==> counters.Value() == old(counters.Value()).Plus(Tally(|files|, 0, 0)).Plus(FilesTally(files))
    ensures ok ==> input.stream == old(input.stream) + FrameAll(Heads(path, files))
  {
    hide Frame, FrameAll, Heads, FilesTally;
    ghost var start, fed := input.stream, [];
    NoHeads(path);
    NoTally();
    for i := 0 to |files|
      invariant counters.entryCount == old(counters.entryCount) + i
      invariant FilesTally(files[..i]).entries == 0
      invariant counters.fileCount == old(counters.fileCount) + FilesTally(files[..i]).files
      invariant counters.totalFileBytes == old(counters.totalFileBytes) + FilesTally(files[..i]).bytes
      invariant counters.totalFileBytes <= MAXIMUM_APP_TOTAL_BYTES
      invariant i > 0 ==> counters.entryCount <= MAXIMUM_APP_TREE_ENTRIES
      invariant forall j :: 0 <= j < i ==> files[j].node.file.length <= MAXIMUM_APP_FILE_BYTES
      invariant input.stream == start + fed && fed == FrameAll(Heads(path, files[..i]))
    {
      var entry := files[i];
      var facts := entry.node.file;
      assert files[..i + 1] == files[..i] + [entry];
      FilesTallyNext(files[..i], entry);
      FilesTallyGrows(files, i + 1);
      counters.entryCount := counters.entryCount + 1;
      if counters.entryCount > MAXIMUM_APP_TREE_ENTRIES { return false; }
      var remainingTotalBytes := MAXIMUM_APP_TOTAL_BYTES - counters.totalFileBytes;
      if facts.length > Least(MAXIMUM_APP_FILE_BYTES, remainingTotalBytes) { return false; }
      var frame := Frame(FileRecord(path + [entry.name], facts));
      input.Update(frame);
      HeadsNext(path, files, i);
      Regroup(start, fed, frame);
      fed := fed + frame;
      counters.fileCount := counters.fileCount + 1;
      counters.totalFileBytes := counters.totalFileBytes + facts.length;
    }
    assert files[..|files|] == files;
    return true;
  }

  lemma BelowNext(path: seq<Name>, dirs: seq<AppChild>, i: nat)
    requires i < |dirs| && dirs[i].node.Directory?
    ensures FrameAll(EmitBelow(path, dirs[..i + 1]))
         == FrameAll(EmitBelow(path, dirs[..i])) + FrameAll(Emit(path + [dirs[i].name], dirs[i].node.children))
    ensures BelowTally(dirs[..i + 1]) == BelowTally(dirs[..i]).Plus(TallyAll(dirs[i].node.children))
  {
    hide Emit, FrameAll;
    assert dirs[..i + 1][..i] == dirs[..i];
    FrameAllAppend(EmitBelow(path, dirs[..i]), Emit(path + [dirs[i].name], dirs[i].node.children));
  }

  /** Success of a directory, from what is already counted. */
  ghost predicate Passes(children: seq<AppChild>, counted: Tally) {
    Admissible(children) && InCaps(counted.Plus(TallyAll(children)))
  }

  /**
   * _hash_app_directory: whatever the order of the scans and the shape of the tree, it succeeds
   * exactly when the tree holds only directories and files inside all three caps; then it has
   * counted every entry, file and byte once and has hashed exactly the canonical stream.
   */
  method HashAppDirectory(path: seq<Name>, children: seq<AppChild>, scan: seq<Name> -> seq<Name>,
                          input: HashInput, counters: Counters)
    returns (ok: bool)
    requires Canonical(children) && Scans(scan) && InCaps(counters.Value())
    modifies input, counters
    ensures ok <==> Passes(children, old(counters.Value()))
    ensures ok ==> counters.Value() == old(counters.Value()).Plus(TallyAll(children))
    ensures ok ==> input.stream == old(input.stream) + FrameAll(Emit(path, children))
    decreases children, 1
  {
    hide FrameAll, Emit, EmitBelow, Heads, TallyAll, FilesTally, BelowTally, Dirs, Files, SortedSet;
    ghost var counted, start := counters.Value(), input.stream;
    KindsOf(children);
    TallyInOrder(children);
    var listed := scan(Names(children));
    AnyScanSortsAlike(children, listed);
    var names := ListNames(listed, counters.entryCount);
    if names.None? { return false; }
    var kinds := Classify(children, names.value);
    if kinds.None? { return false; }
    var (dirs, files) := kinds.value;
    ok := HashDirectoryEntries(path, dirs, input, counters);
    if !ok { return; }
    ok := HashFileEntries(path, files, input, counters);
    if !ok {
      OwnFilesFail(children, counted);
      return;
    }
    ok := HashBelow(path, children, dirs, scan, input, counters);
    EmissionParts(path, children);
    DirsAdmit(children);
    Regroup(start, FrameAll(Heads(path, dirs)), FrameAll(Heads(path, files)));
    Regroup(start, FrameAll(Heads(path, dirs)) + FrameAll(Heads(path, files)), FrameAll(EmitBelow(path, dirs)));
  }

  /** A file above its cap or past the total cap rules the directory out. */
  lemma OwnFilesFail(children: seq<AppChild>, counted: Tally)
    requires counted.bytes + FilesTally(Files(children)).bytes > MAXIMUM_APP_TOTAL_BYTES
             || exists i :: 0 <= i < |Files(children)| && Files(children)[i].node.File?
                            && Files(children)[i].node.file.length > MAXIMUM_APP_FILE_BYTES
    ensures !Passes(children, counted)
  {
    hide FilesTally, BelowTally, TallyAll, Dirs, Files;
    KindsOf(children);
    TallyInOrder(children);
    if i :| 0 <= i < |Files(children)| && Files(children)[i].node.File?
            && Files(children)[i].node.file.length > MAXIMUM_APP_FILE_BYTES {
      assert Files(children)[i] in Files(children);
    }
  }

  ghost predicate DirsAdmissible(dirs: seq<AppChild>) {
    forall i :: 0 <= i < |dirs| && dirs[i].node.Directory? ==> Admissible(dirs[i].node.children)
  }

  lemma DirsAdmit(children: seq<AppChild>)
    requires forall c :: c in children ==> !c.node.Special?
    requires forall i :: 0 <= i < |Files(children)| && Files(children)[i].node.File? ==>
               Files(children)[i].node.file.length <= MAXIMUM_APP_FILE_BYTES
    ensures Admissible(children) <==> DirsAdmissible(Dirs(children))
  {
    hide Dirs, Files;
    KindsOf(children);
    assert forall i :: 0 <= i < |Dirs(children)| ==> Dirs(children)[i] in Dirs(children);
  }

  /** The recursive part of one directory. */
  method HashBelow(path: seq<Name>, ghost children: seq<AppChild>, dirs: seq<AppChild>, scan: seq<Name> -> seq<Name>,
                   input: HashInput, counters: Counters)
    returns (ok: bool)
    requires Canonical(children) && Scans(scan) && InCaps(counters.Value())
    requires forall i :: 0 <= i < |dirs| ==> dirs[i] in children && dirs[i].node.Directory?
    modifies input, counters
    ensures ok <==> DirsAdmissible(dirs) && InCaps(old(counters.Value()).Plus(BelowTally(dirs)))
    ensures ok ==> counters.Value() == old(counters.Value()).Plus(BelowTally(dirs))
    ensures ok ==> input.stream == old(input.stream) + FrameAll(EmitBelow(path, dirs))
    decreases children, 0
  {
    hide FrameAll, Emit, EmitBelow, TallyAll, BelowTally, Passes, DirsAdmissible, InCaps, Admissible;
    ghost var start, fed, counted := input.stream, [], counters.Value();
    NoTally();
    NothingBelow(path);
    NoneInadmissible(dirs);
    for i := 0 to |dirs|
      invariant counters.Value() == counted.Plus(BelowTally(dirs[..i])) && InCaps(counters.Value())
      invariant DirsAdmissible(dirs[..i])
      invariant input.stream == start + fed && fed == FrameAll(EmitBelow(path, dirs[..i]))
    {
      BelowNext(path, dirs, i);
      BelowDecides(dirs, i, counted);
      var entry := dirs[i];
      ok := HashAppDirectory(path + [entry.name], entry.node.children, scan, input, counters);
      if !ok { return; }
      Regroup(start, fed, FrameAll(Emit(path + [entry.name], entry.node.children)));
      fed := fed + FrameAll(Emit(path + [entry.name], entry.node.children));
    }
    assert dirs[..|dirs|] == dirs;
    ok := true;
  }

  lemma NoneInadmissible(dirs: seq<AppChild>)
    ensures DirsAdmissible(dirs[..0])
  {
  }

  /** Each directory either leaves everything so far in order or spoils the whole. */
  lemma BelowDecides(dirs: seq<AppChild>, i: nat, counted: Tally)
    requires i < |dirs| && dirs[i].node.Directory? && DirsAdmissible(dirs[..i])
    ensures var passes := Passes(dirs[i].node.children, counted.Plus(BelowTally(dirs[..i])));
            && (passes ==> DirsAdmissible(dirs[..i + 1]) && InCaps(counted.Plus(BelowTally(dirs[..i + 1]))))
            && (!passes ==> !(DirsAdmissible(dirs) && InCaps(counted.Plus(BelowTally(dirs)))))
  {
    hide DirsAdmissible, Admissible, BelowTally, TallyAll;
    AdmissibleNext(dirs, i);
    TallyBetween(dirs, i);
    ghost var own, upTo, next, all :=
      TallyAll(dirs[i].node.children), BelowTally(dirs[..i]), BelowTally(dirs[..i + 1]), BelowTally(dirs);
    TalliesDecide(counted, own, upTo, next, all);
  }

  lemma TalliesDecide(counted: Tally, own: Tally, upTo: Tally, next: Tally, all: Tally)
    requires next == upTo.Plus(own) && next.AtMost(all)
    ensures counted.Plus(upTo).Plus(own) == counted.Plus(next)
    ensures InCaps(counted.Plus(all)) ==> InCaps(counted.Plus(next))
  {
  }

  lemma TallyBetween(dirs: seq<AppChild>, i: nat)
    requires i < |dirs| && dirs[i].node.Directory?
    ensures BelowTally(dirs[..i + 1]) == BelowTally(dirs[..i]).Plus(TallyAll(dirs[i].node.children))
    ensures BelowTally(dirs[..i + 1]).AtMost(BelowTally(dirs))
  {
    BelowTallyGrows(dirs, i + 1);
    assert dirs[..i + 1] == dirs[..i] + [dirs[i]];
    BelowTallyNext(dirs[..i], dirs[i]);
  }

  lemma AdmissibleNext(dirs: seq<AppChild>, i: nat)
    requires i < |dirs| && dirs[i].node.Directory? && DirsAdmissible(dirs[..i])
    ensures DirsAdmissible(dirs[..i + 1]) <==> Admissible(dirs[i].node.children)
    ensures DirsAdmissible(dirs) ==> Admissible(dirs[i].node.children)
  {
    hide Admissible;
    var longer := dirs[..i + 1];
    assert longer[i] == dirs[i] && forall j :: 0 <= j < i ==> longer[j] == dirs[..i][j];
  }

  lemma NothingBelow(path: seq<Name>)
    ensures FrameAll(EmitBelow(path, [])) == []
  {
  }

  lemma EmissionParts(path: seq<Name>, children: seq<AppChild>)
    ensures FrameAll(Emit(path, children))
         == FrameAll(Heads(path, Dirs(children))) + FrameAll(Heads(path, Files(children)))
            + FrameAll(EmitBelow(path, Dirs(children)))
  {
    BelowDirsOnly(path, children);
    FrameAllAppend(Heads(path, Dirs(children)) + Heads(path, Files(children)), EmitBelow(path, children));
    FrameAllAppend(Heads(path, Dirs(children)), Heads(path, Files(children)));
  }

  /** One whole digest: the bytes hashed, the number of files and the total of their bytes. */
  method DigestTree(children: seq<AppChild>, scan: seq<Name> -> seq<Name>)
    returns (r: Option<(seq<byte>, nat, nat)>)
    requires Canonical(children) && Scans(scan)
    ensures r.Some? <==> Passes(children, Tally(0, 0, 0))
    ensures r.Some? ==> r.value == (Stream(children), TallyAll(children).files, TallyAll(children).bytes)
  {
    var input := new HashInput();
    var counters := new Counters();
    var ok := HashAppDirectory([], children, scan, input, counters);
    if !ok { return None; }
    assert [] + Stream(children) == Stream(children);
    return Some((input.stream, counters.fileCount, counters.totalFileBytes));
  }
}
