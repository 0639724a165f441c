/** Byte strings, their substring occurrences and big-endian integers, as the scripts use them. */
module Bytes {

  type byte = x: int | 0 <= x < 256

  datatype Option<+T> = None | Some(value: T)

  /** All chunks one after another: the content that successive reads deliver. */
  function Flatten<T>(parts: seq<seq<T>>): seq<T> {
    if parts == [] then [] else Flatten(parts[..|parts| - 1]) + parts[|parts| - 1]
  }

  lemma {:induction false} FlattenAppend<T>(a: seq<seq<T>>, b: seq<seq<T>>)
    ensures Flatten(a + b) == Flatten(a) + Flatten(b)
  {
    if b == [] {
      assert a + b == a;
    } else {
      assert (a + b)[..|a + b| - 1] == a + b[..|b| - 1];
      FlattenAppend(a, b[..|b| - 1]);
    }
  }

  lemma FlattenCons<T>(first: seq<T>, rest: seq<seq<T>>)
    ensures Flatten([first] + rest) == first + Flatten(rest)
  {
    FlattenAppend([first], rest);
    assert [first][..0] == [];
    assert Flatten([first]) == first;
  }

  lemma Regroup(a: seq<byte>, b: seq<byte>, c: seq<byte>)
    ensures a + b + c == a + (b + c)
  {
  }

  /** `needle` lies in `text` at position `p`. */
  predicate At(text: seq<byte>, needle: seq<byte>, p: int) {
    0 <= p && p + |needle| <= |text| && text[p..p + |needle|] == needle
  }

  /** How many positions below `bound` carry an occurrence; occurrences may overlap. */
  ghost function CountBelow(text: seq<byte>, needle: seq<byte>, bound: nat): nat {
    if bound == 0 then 0
    else CountBelow(text, needle, bound - 1) + (if At(text, needle, bound - 1) then 1 else 0)
  }

  /** Python's `text.find(needle, start)`: the first occurrence from `start` on, or -1. */
  method Find(text: seq<byte>, needle: seq<byte>, start: nat) returns (p: int)
    ensures p == -1 || (start <= p && At(text, needle, p))
    ensures forall q :: start <= q && (p == -1 || q < p) ==> !At(text, needle, q)
  {
    p := start;
    while p + |needle| <= |text|
      invariant start <= p
      invariant forall q :: start <= q < p ==> !At(text, needle, q)
      decreases |text| - p
    {
      if text[p..p + |needle|] == needle { return; }
      p := p + 1;
    }
    p := -1;
  }

  /** Python's `text.rfind(needle)`: the last occurrence, or -1. */
  method FindLast(text: seq<byte>, needle: seq<byte>) returns (p: int)
    ensures p == -1 || At(text, needle, p)
    ensures forall q :: p < q ==> !At(text, needle, q)
  {
    p := |text| - |needle|;
    while p >= 0
      invariant p >= -1 || p == |text| - |needle|
      invariant forall q :: p < q ==> !At(text, needle, q)
      decreases p
    {
      if text[p..p + |needle|] == needle { return; }
      p := p - 1;
    }
    p := -1;
  }

  /** An occurrence that fits in the shorter text is an occurrence in every extension, and conversely. */
  lemma AtExtend(text: seq<byte>, more: seq<byte>, needle: seq<byte>, p: int)
    requires p + |needle| <= |text|
    ensures At(text + more, needle, p) == At(text, needle, p)
  {
    if 0 <= p {
      assert (text + more)[p..p + |needle|] == text[p..p + |needle|];
    }
  }

  lemma AtSuffix(text: seq<byte>, base: nat, needle: seq<byte>, p: int)
    requires base <= |text| && 0 <= p
    ensures At(text[base..], needle, p) == At(text, needle, base + p)
  {
    if base + p + |needle| <= |text| {
      assert text[base..][p..p + |needle|] == text[base + p..base + p + |needle|];
    }
  }

  lemma {:induction false} CountExtend(text: seq<byte>, more: seq<byte>, needle: seq<byte>, bound: nat)
    requires bound == 0 || bound - 1 + |needle| <= |text|
    ensures CountBelow(text + more, needle, bound) == CountBelow(text, needle, bound)
  {
    if bound > 0 {
      CountExtend(text, more, needle, bound - 1);
      AtExtend(text, more, needle, bound - 1);
    }
  }

  lemma {:induction false} CountShift(text: seq<byte>, base: nat, needle: seq<byte>, bound: nat)
    requires base <= |text|
    ensures CountBelow(text, needle, base + bound)
         == CountBelow(text, needle, base) + CountBelow(text[base..], needle, bound)
  {
    if bound > 0 {
      CountShift(text, base, needle, bound - 1);
      AtSuffix(text, base, needle, bound - 1);
    }
  }

  lemma {:induction false} CountMonotone(text: seq<byte>, needle: seq<byte>, low: nat, high: nat)
    requires low <= high
    ensures CountBelow(text, needle, low) <= CountBelow(text, needle, high)
    decreases high - low
  {
    if low < high {
      CountMonotone(text, needle, low, high - 1);
    }
  }

  lemma {:induction false} CountNone(text: seq<byte>, needle: seq<byte>, low: nat, high: nat)
    requires low <= high
    requires forall p :: low <= p < high ==> !At(text, needle, p)
    ensures CountBelow(text, needle, low) == CountBelow(text, needle, high)
    decreases high - low
  {
    if low < high {
      CountNone(text, needle, low, high - 1);
    }
  }

  /** If two bounds count differently, an occurrence lies between them. */
  lemma {:induction false} CountWitness(text: seq<byte>, needle: seq<byte>, low: nat, high: nat) returns (p: nat)
    requires low <= high && CountBelow(text, needle, low) != CountBelow(text, needle, high)
    ensures low <= p < high && At(text, needle, p)
    decreases high - low
  {
    if At(text, needle, high - 1) {
      p := high - 1;
    } else {
      p := CountWitness(text, needle, low, high - 1);
    }
  }

  predicate UniqueAt(text: seq<byte>, needle: seq<byte>, p: int) {
    At(text, needle, p) && forall q :: 0 <= q <= |text| && q != p ==> !At(text, needle, q)
  }

  lemma UniqueCountsOne(text: seq<byte>, needle: seq<byte>, p: nat)
    requires needle != [] && UniqueAt(text, needle, p)
    ensures CountBelow(text, needle, |text|) == 1
  {
    CountNone(text, needle, 0, p);
    CountNone(text, needle, p + 1, |text|);
  }

  lemma OneCountIsUnique(text: seq<byte>, needle: seq<byte>) returns (p: nat)
    requires needle != [] && CountBelow(text, needle, |text|) == 1
    ensures UniqueAt(text, needle, p)
  {
    p := CountWitness(text, needle, 0, |text|);
    forall q | 0 <= q <= |text| && q != p ensures !At(text, needle, q) {
      if At(text, needle, q) {
        var first, second := if q < p then q else p, if q < p then p else q;
        CountMonotone(text, needle, 0, first);
        CountMonotone(text, needle, first + 1, second);
        CountMonotone(text, needle, second + 1, |text|);
      }
    }
  }

  // ---- big-endian integers -------------------------------------------------------------

  function Pow256(width: nat): (r: nat)
    ensures r >= 1
  {
    if width == 0 then 1 else 256 * Pow256(width - 1)
  }

  /** Python's `n.to_bytes(width, "big")` for a value that fits. */
  function BigEndian(n: nat, width: nat): (s: seq<byte>)
    ensures |s| == width
  {
    if width == 0 then [] else BigEndian(n / 256, width - 1) + [n % 256]
  }

  /** Python's `int.from_bytes(s, "big")`. */
  function FromBigEndian(s: seq<byte>): nat {
    if s == [] then 0 else FromBigEndian(s[..|s| - 1]) * 256 + s[|s| - 1]
  }

  lemma {:induction false} BigEndianRoundTrip(n: nat, width: nat)
    requires n < Pow256(width)
    ensures FromBigEndian(BigEndian(n, width)) == n
  {
    if width > 0 {
      BigEndianRoundTrip(n / 256, width - 1);
      assert BigEndian(n, width)[..width - 1] == BigEndian(n / 256, width - 1);
    }
  }

  lemma {:induction false} FromBigEndianRoundTrip(s: seq<byte>)
    ensures FromBigEndian(s) < Pow256(|s|)
    ensures BigEndian(FromBigEndian(s), |s|) == s
  {
    if s != [] {
      FromBigEndianRoundTrip(s[..|s| - 1]);
    }
  }

  lemma Widths()
    ensures Pow256(2) == 0x1_0000 && Pow256(4) == 0x1_0000_0000 && Pow256(8) == 0x1_0000_0000_0000_0000
  {
    assert Pow256(1) == 256;
    assert Pow256(3) == 0x100_0000;
    assert Pow256(5) == 0x100_0000_0000;
    assert Pow256(6) == 0x1_0000_0000_0000;
    assert Pow256(7) == 0x100_0000_0000_0000;
  }

  // ---- slash-separated paths ------------------------------------------------------------

  const SLASH: byte := 47

  /** Components joined with '/', none for the empty path. */
  function Join(parts: seq<seq<byte>>): seq<byte> {
    if parts == [] then []
    else if |parts| == 1 then parts[0]
    else parts[0] + [SLASH] + Join(parts[1..])
  }

  /** The pieces between slashes; a text without slashes is one piece. */
  function Split(text: seq<byte>): (parts: seq<seq<byte>>)
    ensures parts != []
  {
    if text == [] then [[]]
    else
      var rest := Split(text[1..]);
      if text[0] == SLASH then [[]] + rest else [[text[0]] + rest[0]] + rest[1..]
  }

  lemma {:induction false} SplitPiece(piece: seq<byte>, rest: seq<byte>)
    requires SLASH !in piece
    ensures Split(piece + [SLASH] + rest) == [piece] + Split(rest)
  {
    var text := piece + [SLASH] + rest;
    if piece == [] {
      assert text[1..] == rest;
    } else {
      assert text[1..] == piece[1..] + [SLASH] + rest;
      SplitPiece(piece[1..], rest);
      assert [piece[0]] + piece[1..] == piece;
    }
  }

  lemma {:induction false} SplitWhole(piece: seq<byte>)
    requires SLASH !in piece
    ensures Split(piece) == [piece]
  {
    if piece != [] {
      SplitWhole(piece[1..]);
      assert [piece[0]] + piece[1..] == piece;
    }
  }

  /** Splitting undoes joining, so a joined path determines its components. */
  lemma {:induction false} SplitJoin(parts: seq<seq<byte>>)
    requires parts != [] && forall i :: 0 <= i < |parts| ==> SLASH !in parts[i]
    ensures Split(Join(parts)) == parts
  {
    if |parts| == 1 {
      SplitWhole(parts[0]);
    } else {
      SplitJoin(parts[1..]);
      SplitPiece(parts[0], Join(parts[1..]));
      assert [parts[0]] + parts[1..] == parts;
    }
  }
}
