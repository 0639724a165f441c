/** Lexicographic order of names and texts, and the sorted listings the scripts build with it. */
module Ordering {

  type Text = seq<int>   // bytes of a name, or code points of a text

  predicate Less(a: Text, b: Text) {
    b != [] && (a == [] || a[0] < b[0] || (a[0] == b[0] && Less(a[1..], b[1..])))
  }

  lemma {:induction false} LessTotal(a: Text, b: Text)
    ensures !Less(a, a)
    ensures !(Less(a, b) && Less(b, a))
    ensures Less(a, b) || a == b || Less(b, a)
  {
    if a != [] {
      LessTotal(a[1..], if b == [] then [] else b[1..]);
      if b != [] && a[0] == b[0] && a[1..] == b[1..] {
        assert a == [a[0]] + a[1..] == b;
      }
    }
  }

  lemma {:induction false} LessTransitive(a: Text, b: Text, c: Text)
    requires Less(a, b) && Less(b, c)
    ensures Less(a, c)
  {
    if a != [] && a[0] == b[0] == c[0] {
      LessTransitive(a[1..], b[1..], c[1..]);
    }
  }

  /** Strictly increasing, hence without duplicates. */
  predicate Increasing(s: seq<Text>) {
    forall i, j :: 0 <= i < j < |s| ==> Less(s[i], s[j])
  }

  /** Insertion into a sorted listing; an equal text is not inserted again. */
  function InsertNew(x: Text, s: seq<Text>): (r: seq<Text>)
    requires Increasing(s)
    ensures forall y :: y in r <==> y == x || y in s
    ensures Increasing(r)
  {
    if s == [] then [x]
    else
      LessTotal(x, s[0]);
      if x == s[0] then s
      else if Less(x, s[0]) then
        InFront(x, s);
        [x] + s
      else
        var rest := InsertNew(x, s[1..]);
        assert forall y :: y in rest ==> Less(s[0], y);
        [s[0]] + rest
  }

  lemma InFront(x: Text, s: seq<Text>)
    requires Increasing(s) && s != [] && Less(x, s[0])
    ensures Increasing([x] + s)
  {
    forall j | 0 <= j < |s| ensures Less(x, s[j]) {
      if j > 0 { LessTransitive(x, s[0], s[j]); }
    }
  }

  /** Python's `sorted(set(s))`. */
  function SortedSet(s: seq<Text>): (r: seq<Text>)
    ensures forall y :: y in r <==> y in s
    ensures Increasing(r)
  {
    if s == [] then [] else InsertNew(s[0], SortedSet(s[1..]))
  }

  /** A set of texts has one increasing listing. */
  lemma {:induction false} IncreasingIsUnique(a: seq<Text>, b: seq<Text>)
    requires Increasing(a) && Increasing(b) && forall y :: y in a <==> y in b
    ensures a == b
  {
    assert a != [] ==> a[0] in b;
    assert b != [] ==> b[0] in a;
    if a != [] && b != [] {
      SameFirst(a, b);
      SameFirst(b, a);
      LessTotal(a[0], b[0]);
      forall y ensures y in a[1..] <==> y in b[1..] {
        LessTotal(a[0], a[0]);
        assert y in a <==> y == a[0] || y in a[1..];
        assert y in b <==> y == b[0] || y in b[1..];
        assert a[0] !in a[1..] && b[0] !in b[1..];
      }
      IncreasingIsUnique(a[1..], b[1..]);
    }
  }

  lemma SameFirst(a: seq<Text>, b: seq<Text>)
    requires a != [] && b != [] && Increasing(a) && Increasing(b) && forall y :: y in a <==> y in b
    ensures !Less(a[0], b[0])
  {
    assert a[0] in b;
    var i :| 0 <= i < |b| && b[i] == a[0];
    LessTotal(a[0], b[0]);
  }
}
