/** Directory trees as the digests see them: names, kinds and a payload for every entry. */
module FileTree {
  import opened Bytes
  import opened Ordering

  type Name = seq<byte>

  /** `D` is what a digest keeps of a directory, `F` what it keeps of a regular file. */
  datatype Node<D, F> = Directory(directory: D, children: seq<Child<D, F>>) | File(file: F) | Special
  datatype Child<D, F> = Child(name: Name, node: Node<D, F>)

  const DOT: byte := 46

  predicate ValidName(name: Name) {
    name != [] && SLASH !in name && name != [DOT] && name != [DOT, DOT]
  }

  predicate ValidPath(path: seq<Name>) {
    path != [] && forall i :: 0 <= i < |path| ==> ValidName(path[i])
  }

  function Names<D, F>(children: seq<Child<D, F>>): seq<Name> {
    seq(|children|, i requires 0 <= i < |children| => children[i].name)
  }

  /** A directory's entries in byte order of their names: a finite map from names to nodes, listed once. */
  ghost predicate Canonical<D, F>(children: seq<Child<D, F>>)
    decreases children
  {
    Increasing(Names(children))
    && forall c :: c in children ==> ValidName(c.name) && (c.node.Directory? ==> Canonical(c.node.children))
  }

  lemma NamesDistinct<D, F>(children: seq<Child<D, F>>, i: nat, j: nat)
    requires Increasing(Names(children)) && i < |children| && j < |children|
    ensures children[i].name == children[j].name ==> i == j
  {
    LessTotal(children[i].name, children[i].name);
    assert Names(children)[i] == children[i].name && Names(children)[j] == children[j].name;
  }

  lemma CanonicalTail<D, F>(children: seq<Child<D, F>>)
    requires Canonical(children) && children != []
    ensures Canonical(children[1..])
    ensures forall c :: c in children[1..] ==> c.name != children[0].name
  {
    var rest := children[1..];
    assert Names(rest) == Names(children)[1..];
    forall c | c in rest ensures c.name != children[0].name {
      var i :| 0 <= i < |rest| && rest[i] == c;
      NamesDistinct(children, 0, i + 1);
    }
  }

  /** Two canonical listings with the same entries are the same listing. */
  lemma SameEntriesSameListing<D, F>(a: seq<Child<D, F>>, b: seq<Child<D, F>>)
    requires Increasing(Names(a)) && Increasing(Names(b)) && forall c :: c in a <==> c in b
    ensures a == b
  {
    forall y ensures y in Names(a) <==> y in Names(b) {
      NameOfEntry(a, b, y);
      NameOfEntry(b, a, y);
    }
    IncreasingIsUnique(Names(a), Names(b));
    assert |a| == |Names(a)| == |Names(b)| == |b|;
    forall i | 0 <= i < |a| ensures a[i] == b[i] {
      assert a[i] in b;
      var j :| 0 <= j < |b| && b[j] == a[i];
      assert Names(a)[i] == Names(b)[i] == b[i].name;
      NamesDistinct(b, i, j);
    }
  }

  lemma NameOfEntry<D, F>(a: seq<Child<D, F>>, b: seq<Child<D, F>>, y: Text)
    requires forall c :: c in a ==> c in b
    ensures y in Names(a) ==> y in Names(b)
  {
    if y in Names(a) {
      var i :| 0 <= i < |a| && Names(a)[i] == y;
      assert a[i] in b;
      var j :| 0 <= j < |b| && b[j] == a[i];
      assert Names(b)[j] == y;
    }
  }

  /** entry_names.sort(key=os.fsencode) on names that are pairwise distinct. */
  function SortNames(names: seq<Name>): (r: seq<Name>)
    ensures r == SortedSet(names)
  {
    var r := SortedSet(names);
    assert forall i :: 0 <= i < |r| ==> r[i] in names;
    r
  }

  /** A scan may list a directory in any order, each entry once. */
  ghost predicate Scans(scan: seq<Name> -> seq<Name>) {
    forall names: seq<Name> :: multiset(scan(names)) == multiset(names)
  }

  /** Sorting the names of any listing of a directory gives its canonical order. */
  lemma AnyScanSortsAlike<D, F>(children: seq<Child<D, F>>, scan: seq<Name>)
    requires Increasing(Names(children)) && multiset(scan) == multiset(Names(children))
    ensures SortedSet(scan) == Names(children) && |scan| == |children|
  {
    forall y ensures y in scan <==> y in Names(children) {
      assert y in scan <==> y in multiset(scan);
      assert y in Names(children) <==> y in multiset(Names(children));
    }
    IncreasingIsUnique(SortedSet(scan), Names(children));
    assert |scan| == |multiset(scan)|;
  }

  /** The entry that a stat of `name` inside the directory finds. */
  function Stat<D, F>(children: seq<Child<D, F>>, name: Name): (c: Child<D, F>)
    requires name in Names(children)
    ensures c in children && c.name == name
  {
    if children[0].name == name then children[0]
    else
      assert exists i :: 1 <= i < |children| && Names(children)[i] == name;
      assert Names(children[1..]) == Names(children)[1..];
      Stat(children[1..], name)
  }

  lemma StatAt<D, F>(children: seq<Child<D, F>>, i: nat)
    requires Increasing(Names(children)) && i < |children|
    ensures children[i].name in Names(children) && Stat(children, children[i].name) == children[i]
  {
    assert Names(children)[i] == children[i].name;
    var c := Stat(children, children[i].name);
    var j :| 0 <= j < |children| && children[j] == c;
    NamesDistinct(children, i, j);
  }

  // ---- splitting record lists --------------------------------------------------------------

  /** Where a list is cut by a property is determined by the list. */
  lemma CutIsUnique<R>(a: seq<R>, b: seq<R>, c: seq<R>, d: seq<R>, front: R -> bool)
    requires a + b == c + d
    requires (forall r :: r in a ==> front(r)) && (forall r :: r in c ==> front(r))
    requires (forall r :: r in b ==> !front(r)) && (forall r :: r in d ==> !front(r))
    ensures a == c && b == d
  {
    var all := a + b;
    assert forall i :: 0 <= i < |a| ==> all[i] in a;
    assert forall i :: |a| <= i < |all| ==> all[i] in b;
    assert forall i :: 0 <= i < |c| ==> all[i] in c;
    assert forall i :: |c| <= i < |all| ==> all[i] in d;
    assert |c| < |all| ==> !front(all[|c|]);
    assert |a| < |all| ==> !front(all[|a|]);
    assert a == all[..|a|] && b == all[|a|..];
    assert c == all[..|c|] && d == all[|c|..];
  }
}
