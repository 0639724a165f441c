/** The corrected history, journal and ledger: which bytes change and which do not. */
module RepairRewrite {
  import opened Bytes

  const LINE_FEED: byte := 10
  const CARRIAGE_RETURN: byte := 13

  type Line = seq<byte>

  // ---- bytes.splitlines --------------------------------------------------------------------

  predicate Breaks(b: byte) { b == LINE_FEED || b == CARRIAGE_RETURN }

  /** The length of the first line of `data`, its line end included. */
  function FirstLine(data: seq<byte>): (n: nat)
    requires data != []
    ensures 0 < n <= |data|
  {
    if data[0] == LINE_FEED then 1
    else if data[0] == CARRIAGE_RETURN then if |data| > 1 && data[1] == LINE_FEED then 2 else 1
    else if |data| == 1 then 1
    else 1 + FirstLine(data[1..])
  }

  /** `data.splitlines(keepends=True)`. */
  function SplitLines(data: seq<byte>): seq<Line> {
    if data == [] then [] else [data[..FirstLine(data)]] + SplitLines(data[FirstLine(data)..])
  }

  /** A line without its line end, as `data.splitlines()` gives it. */
  function Content(line: Line): Line {
    if line == [] || !Breaks(line[|line| - 1]) then line else Content(line[..|line| - 1])
  }

  lemma {:induction false} SplitLinesFlatten(data: seq<byte>)
    ensures Flatten(SplitLines(data)) == data
  {
    if data != [] {
      var n := FirstLine(data);
      SplitLinesFlatten(data[n..]);
      FlattenCons(data[..n], SplitLines(data[n..]));
    }
  }

  /** Lines that a split could have produced: each ends where it must, whatever follows it. */
  predicate Lines(lines: seq<Line>) {
    if lines == [] then true
    else
      var rest := Flatten(lines[1..]);
      lines[0] != [] && FirstLine(lines[0] + rest) == |lines[0]| && Lines(lines[1..])
  }

  lemma {:induction false} SplitOfLines(lines: seq<Line>)
    requires Lines(lines)
    ensures SplitLines(Flatten(lines)) == lines
  {
    if lines != [] {
      var first, rest := lines[0], Flatten(lines[1..]);
      assert lines == [first] + lines[1..];
      FlattenCons(first, lines[1..]);
      SplitOfLines(lines[1..]);
      assert (first + rest)[..|first|] == first && (first + rest)[|first|..] == rest;
    }
  }

  lemma {:induction false} SplitGivesLines(data: seq<byte>)
    ensures Lines(SplitLines(data))
  {
    if data != [] {
      var n := FirstLine(data);
      SplitLinesFlatten(data[n..]);
      SplitGivesLines(data[n..]);
      assert data[..n] + data[n..] == data;
    }
  }

  /** One JSON line as encode() writes it: text without line breaks, then a line feed. */
  predicate Encoded(line: Line) {
    |line| >= 2 && line[|line| - 1] == LINE_FEED && forall i :: 0 <= i < |line| - 1 ==> !Breaks(line[i])
  }

  lemma {:induction false} FirstLineOfEncoded(line: Line, rest: seq<byte>)
    requires line != [] && line[|line| - 1] == LINE_FEED && forall i :: 0 <= i < |line| - 1 ==> !Breaks(line[i])
    ensures FirstLine(line + rest) == |line|
    decreases |line|
  {
    if |line| > 1 {
      assert (line + rest)[1..] == line[1..] + rest;
      FirstLineOfEncoded(line[1..], rest);
    }
  }

  /** Where a line ends depends on what follows only through its first byte. */
  lemma {:induction false} FirstLineFollow(line: Line, rest: seq<byte>, other: seq<byte>)
    requires line != [] && rest != [] && other != [] && FirstLine(line + rest) == |line|
    requires other[0] != LINE_FEED || other[0] == rest[0]
    ensures FirstLine(line + other) == |line|
    decreases |line|
  {
    if |line| == 1 {
      assert (line + rest)[1..] == rest;
    } else {
      assert (line + rest)[1..] == line[1..] + rest && (line + other)[1..] == line[1..] + other;
      if !Breaks(line[0]) { FirstLineFollow(line[1..], rest, other); }
    }
  }

  /** Putting an encoded line in the place of another keeps all the other lines as they were. */
  lemma {:induction false} ReplaceOneLine(lines: seq<Line>, k: nat, line: Line)
    requires Lines(lines) && k < |lines| && Encoded(line)
    ensures Lines(lines[k := line])
    decreases |lines|
  {
    var next := lines[k := line];
    if k == 0 {
      assert next[1..] == lines[1..];
      FirstLineOfEncoded(line, Flatten(lines[1..]));
    } else {
      assert next[1..] == lines[1..][k - 1 := line];
      ReplaceOneLine(lines[1..], k - 1, line);
      FollowsUnbroken(lines[1..], k - 1, line);
      FirstLineFollow(lines[0], Flatten(lines[1..]), Flatten(next[1..]));
    }
  }

  lemma FollowsUnbroken(lines: seq<Line>, k: nat, line: Line)
    requires Lines(lines) && k < |lines| && Encoded(line)
    ensures Flatten(lines) != [] && Flatten(lines[k := line]) != []
    ensures Flatten(lines[k := line])[0] == (if k == 0 then line[0] else lines[0][0])
    ensures Flatten(lines)[0] == lines[0][0]
  {
    var next := lines[k := line];
    assert lines == [lines[0]] + lines[1..] && next == [next[0]] + next[1..];
    FlattenCons(lines[0], lines[1..]);
    FlattenCons(next[0], next[1..]);
  }

  /** Replacing line `k` of a file leaves it with the same lines except that one. */
  lemma OnlyLineChanges(data: seq<byte>, k: nat, line: Line)
    requires k < |SplitLines(data)| && Encoded(line)
    ensures SplitLines(Flatten(SplitLines(data)[k := line])) == SplitLines(data)[k := line]
  {
    SplitGivesLines(data);
    ReplaceOneLine(SplitLines(data), k, line);
    SplitOfLines(SplitLines(data)[k := line]);
  }

  // ---- the JSON values the repair reads and writes ------------------------------------------

  datatype Side = Buy | Sell
  datatype Strategy = CaseB | CaseC
  datatype Reason = TakeProfit | ForceSell | OtherReason(text: seq<byte>)

  /** A history row: the fields the repair looks at, and everything else. */
  datatype Row = Row(orderId: seq<byte>, clientId: seq<byte>, side: Side, strategy: Strategy, reason: Reason,
                     rest: seq<byte>)
  /** A journal record with its order object. */
  datatype Record = Record(upsert: bool, clientId: seq<byte>, intentId: seq<byte>, side: Side, reason: Reason,
                           rest: seq<byte>)
  datatype Transfer<Digest> = Transfer(count: nat, digest: Digest, rest: seq<byte>)

  /** The evidence the repair is pinned to. */
  datatype Target = Target(orderId: seq<byte>, clientId: seq<byte>, intentId: seq<byte>)

  function Parsed<T>(lines: seq<Line>, parse: Line -> T): seq<T> {
    seq(|lines|, i requires 0 <= i < |lines| => parse(Content(lines[i])))
  }

  /** Writing and reading back gives the same value, and a written value is one line. */
  ghost predicate Codec<T(!new)>(parse: Line -> T, encode: T -> Line) {
    forall value: T :: Encoded(encode(value)) && parse(Content(encode(value))) == value
  }

  // ---- the trade history -------------------------------------------------------------------

  predicate IsTarget(rows: seq<Row>, target: Target, k: nat) {
    k < |rows| && rows[k].orderId == target.orderId
    && forall i :: 0 <= i < |rows| && i != k ==> rows[i].orderId != target.orderId
  }

  predicate Provenance(row: Row, target: Target) {
    row.clientId == target.clientId && row.side == Sell && row.strategy == CaseB && row.reason == TakeProfit
  }

  datatype CorrectedHistory = CorrectedHistory(data: seq<byte>, before: seq<Row>, after: seq<Row>, index: nat)

  /** The rewriting of trade-history.jsonl: it succeeds exactly for one target row with the expected provenance. */
  method CorrectHistory(data: seq<byte>, target: Target, parse: Line -> Row, encode: Row -> Line)
    returns (r: Option<CorrectedHistory>)
    requires Codec(parse, encode)
    ensures var rows := Parsed(SplitLines(data), parse);
      r.Some? <==> exists k: nat :: IsTarget(rows, target, k) && Provenance(rows[k], target)
    ensures r.Some? ==>
              var c, lines := r.value, SplitLines(data);
              c.before == Parsed(lines, parse) && IsTarget(c.before, target, c.index)
              && (var row := c.before[c.index].(reason := ForceSell);
                  c.after == c.before[c.index := row] && SplitLines(c.data) == lines[c.index := encode(row)])
              && Parsed(SplitLines(c.data), parse) == c.after
  {
    var lines := SplitLines(data);
    var rows := Parsed(lines, parse);
    var found: seq<nat> := [];
    for i := 0 to |rows|
      invariant forall j :: 0 <= j < |found| ==> found[j] < i && rows[found[j]].orderId == target.orderId
      invariant forall j :: 0 <= j < i && rows[j].orderId == target.orderId ==> j in found
      invariant forall j, k :: 0 <= j < k < |found| ==> found[j] < found[k]
    {
      if rows[i].orderId == target.orderId { found := found + [i]; }
    }
    if |found| != 1 {
      NotUnique(rows, target, found);
      return None;
    }
    var index := found[0];
    assert IsTarget(rows, target, index);
    if !Provenance(rows[index], target) {
      forall k: nat | IsTarget(rows, target, k) ensures k == index {
        assert rows[index].orderId == target.orderId;
      }
      return None;
    }
    var row := rows[index].(reason := ForceSell);
    OnlyLineChanges(data, index, encode(row));
    var after := rows[index := row];
    assert Parsed(lines[index := encode(row)], parse) == after;
    return Some(CorrectedHistory(Flatten(lines[index := encode(row)]), rows, after, index));
  }

  lemma NotUnique(rows: seq<Row>, target: Target, found: seq<nat>)
    requires |found| != 1
    requires forall j :: 0 <= j < |found| ==> found[j] < |rows| && rows[found[j]].orderId == target.orderId
    requires forall j :: 0 <= j < |rows| && rows[j].orderId == target.orderId ==> j in found
    requires forall j, k :: 0 <= j < k < |found| ==> found[j] < found[k]
    ensures !exists k :: IsTarget(rows, target, k)
  {
    forall k ensures !IsTarget(rows, target, k) {
      if |found| >= 2 { assert found[0] < found[1]; }
    }
  }

  // ---- the order journal -------------------------------------------------------------------

  predicate Prepared(record: Record, target: Target) {
    record.upsert && record.intentId == target.intentId && record.side == Sell && record.reason == TakeProfit
  }

  /** How many records belong to the target's client order. */
  function Matches(records: seq<Record>, clientId: seq<byte>): nat {
    if records == [] then 0
    else Matches(records[..|records| - 1], clientId) + if records[|records| - 1].clientId == clientId then 1 else 0
  }

  lemma MatchesNext(records: seq<Record>, i: nat, clientId: seq<byte>)
    requires i < |records|
    ensures Matches(records[..i + 1], clientId)
         == Matches(records[..i], clientId) + if records[i].clientId == clientId then 1 else 0
  {
    assert records[..i + 1][..i] == records[..i];
  }

  lemma NoMatches(clientId: seq<byte>)
    ensures Matches([], clientId) == 0
  {
  }

  /** The journal with every matching record's line rewritten. */
  predicate Rewritten(lines: seq<Line>, next: seq<Line>, records: seq<Record>, clientId: seq<byte>, encode: Record -> Line, n: nat) {
    n <= |lines| == |next| == |records|
    && forall i :: 0 <= i < |lines| ==>
         next[i] == if i < n && records[i].clientId == clientId then encode(records[i].(reason := ForceSell)) else lines[i]
  }

  /** The rewriting of the pending-order journal: exactly one matching record, prepared for this very sale. */
  method CorrectJournal(data: seq<byte>, target: Target, parse: Line -> Record, encode: Record -> Line)
    returns (r: Option<seq<byte>>)
    requires Codec(parse, encode)
    ensures var lines := SplitLines(data); var records := Parsed(lines, parse);
      r.Some? <==> Matches(records, target.clientId) == 1
                   && forall i :: 0 <= i < |records| && records[i].clientId == target.clientId ==> Prepared(records[i], target)
    ensures r.Some? ==>
              var lines := SplitLines(data);
              Rewritten(lines, SplitLines(r.value), Parsed(lines, parse), target.clientId, encode, |lines|)
  {
    hide SplitLines, Lines, Flatten, Content, Matches, Prepared;
    NoMatches(target.clientId);
    var lines := SplitLines(data);
    var records := Parsed(lines, parse);
    var next := lines;
    var matches := 0;
    SplitGivesLines(data);
    for i := 0 to |records|
      invariant Rewritten(lines, next, records, target.clientId, encode, i) && Lines(next)
      invariant matches == Matches(records[..i], target.clientId)
      invariant forall j :: 0 <= j < i && records[j].clientId == target.clientId ==> Prepared(records[j], target)
    {
      MatchesNext(records, i, target.clientId);
      if records[i].clientId != target.clientId { continue; }
      if !Prepared(records[i], target) { return None; }
      var line := encode(records[i].(reason := ForceSell));
      ReplaceOneLine(next, i, line);
      next := next[i := line];
      matches := matches + 1;
    }
    assert records[..|records|] == records;
    if matches != 1 { return None; }
    SplitOfLines(next);
    return Some(Flatten(next));
  }

  // ---- the residual ledger -----------------------------------------------------------------

  /** Python's `trades[:count]`. */
  function Prefix(rows: seq<Row>, count: nat): seq<Row> { if count >= |rows| then rows else rows[..count] }

  /** Every ledger digest is moved from the original prefix of the history to the corrected one. */
  method CorrectLedger<Digest(==)>(transfers: seq<Transfer<Digest>>, before: seq<Row>, after: seq<Row>,
                                   digest: seq<Row> -> Digest)
    returns (r: Option<seq<Transfer<Digest>>>)
    ensures r.Some? <==> forall i :: 0 <= i < |transfers| ==> transfers[i].digest == digest(Prefix(before, transfers[i].count))
    ensures r.Some? ==> |r.value| == |transfers| && forall i :: 0 <= i < |transfers| ==>
              r.value[i] == transfers[i].(digest := digest(Prefix(after, transfers[i].count)))
  {
    var next: seq<Transfer<Digest>> := [];
    for i := 0 to |transfers|
      invariant |next| == i
      invariant forall j :: 0 <= j < i ==> transfers[j].digest == digest(Prefix(before, transfers[j].count))
      invariant forall j :: 0 <= j < i ==> next[j] == transfers[j].(digest := digest(Prefix(after, transfers[j].count)))
    {
      var count := transfers[i].count;
      if transfers[i].digest != digest(Prefix(before, count)) { return None; }
      next := next + [transfers[i].(digest := digest(Prefix(after, count)))];
    }
    return Some(next);
  }

  /** The digest's input changes only for the prefixes that include the corrected row. */
  lemma PrefixChangesOnlyPastTarget(before: seq<Row>, index: nat, count: nat)
    requires index < |before| && before[index].reason != ForceSell
    ensures Prefix(before[index := before[index].(reason := ForceSell)], count) == Prefix(before, count) <==> count <= index
  {
    var after := before[index := before[index].(reason := ForceSell)];
    if count <= index {
      assert Prefix(after, count) == Prefix(before, count);
    } else {
      assert Prefix(after, count)[index] != Prefix(before, count)[index];
    }
  }
}
