/** The incremental reader of append-only logs and the streaming summaries it feeds. */
module LogTail {
  import opened Bytes

  const NEWLINE: byte := 10
  const LINE_LIMIT := 1024 * 1024

  type Line = seq<byte>
  type Directory = map<seq<byte>, seq<byte>>   // file name to content

  /** Position of the first newline from `start` on, or the length of the text. */
  function NewlineFrom(text: seq<byte>, start: nat): (p: nat)
    requires start <= |text|
    ensures start <= p <= |text| && (p < |text| ==> text[p] == NEWLINE)
    ensures forall q :: start <= q < p ==> text[q] != NEWLINE
    decreases |text| - start
  {
    if start == |text| || text[start] == NEWLINE then start else NewlineFrom(text, start + 1)
  }

  /** Python's `stream.readline(LINE_LIMIT)` at `start`: up to and including a newline, cut at the limit. */
  function ReadLine(text: seq<byte>, start: nat): (line: Line) {
    if start >= |text| then []
    else
      var stop := NewlineFrom(text, start);
      var end := if stop < |text| then stop + 1 else stop;
      if end - start <= LINE_LIMIT then text[start..end] else text[start..start + LINE_LIMIT]
  }

  predicate EndsWithNewline(line: Line) { line != [] && line[|line| - 1] == NEWLINE }

  /** The lines one visit to a file takes from `start` on, in order. */
  function NewLines(text: seq<byte>, start: nat): seq<Line>
    decreases |text| - start
  {
    var line := ReadLine(text, start);
    if EndsWithNewline(line) then [line] + NewLines(text, start + |line|) else []
  }

  // ---- what "completed lines" are, without reading ---------------------------------------

  /** A completed line: one newline, at its end. */
  predicate IsLine(line: Line) {
    EndsWithNewline(line) && forall i :: 0 <= i < |line| - 1 ==> line[i] != NEWLINE
  }

  /** `lines` are exactly the completed lines of `text`, and `partial` is what follows the last newline. */
  predicate Splits(text: seq<byte>, lines: seq<Line>, partial: seq<byte>) {
    text == Flatten(lines) + partial && NEWLINE !in partial
    && forall i :: 0 <= i < |lines| ==> IsLine(lines[i])
  }

  /** The lines in front of the first one that is longer than the limit. */
  function BeforeOverlong(lines: seq<Line>): seq<Line> {
    if lines == [] || |lines[0]| > LINE_LIMIT then [] else [lines[0]] + BeforeOverlong(lines[1..])
  }

  lemma ReadLineOfLine(text: seq<byte>, start: nat, line: Line, rest: seq<byte>)
    requires start <= |text| && text[start..] == line + rest && IsLine(line)
    ensures |line| <= LINE_LIMIT ==> ReadLine(text, start) == line
    ensures |line| > LINE_LIMIT ==> !EndsWithNewline(ReadLine(text, start))
  {
    var stop := NewlineFrom(text, start);
    var last := start + |line| - 1;
    assert forall i :: 0 <= i < |line| ==> text[start + i] == text[start..][i] == line[i];
    assert text[last] == NEWLINE;
    assert stop <= last;
    assert text[stop] == text[start..][stop - start] == line[stop - start];
    assert stop == last;
    assert text[start..start + |line|] == text[start..][..|line|];
  }

  lemma ReadLineOfPartial(text: seq<byte>, start: nat)
    requires start <= |text| && NEWLINE !in text[start..]
    ensures !EndsWithNewline(ReadLine(text, start))
  {
    var line := ReadLine(text, start);
    if line != [] {
      assert line[|line| - 1] == text[start..][|line| - 1];
    }
  }

  /** One visit takes the completed lines from its start, up to the first overlong one. */
  lemma {:induction false} VisitTakesCompleteLines(text: seq<byte>, start: nat, lines: seq<Line>, partial: seq<byte>)
    requires start <= |text| && Splits(text[start..], lines, partial)
    ensures NewLines(text, start) == BeforeOverlong(lines)
    decreases |lines|
  {
    hide ReadLine, NewLines, Flatten;
    FlattenEmpty<byte>();
    VisitStep(text, start);
    if lines == [] {
      assert text[start..] == partial;
      ReadLineOfPartial(text, start);
    } else {
      assert [lines[0]] + lines[1..] == lines;
      FlattenCons(lines[0], lines[1..]);
      var rest := Flatten(lines[1..]) + partial;
      assert text[start..] == lines[0] + rest;
      ReadLineOfLine(text, start, lines[0], rest);
      if |lines[0]| <= LINE_LIMIT {
        assert text[start + |lines[0]|..] == text[start..][|lines[0]|..] == rest;
        VisitTakesCompleteLines(text, start + |lines[0]|, lines[1..], partial);
      }
    }
  }

  /** Every text splits into completed lines and a partial one. */
  lemma {:induction false} SplitExists(text: seq<byte>) returns (lines: seq<Line>, partial: seq<byte>)
    ensures Splits(text, lines, partial)
    decreases |text|
  {
    var stop := NewlineFrom(text, 0);
    if stop == |text| {
      lines, partial := [], text;
    } else {
      var line := text[..stop + 1];
      var later;
      later, partial := SplitExists(text[stop + 1..]);
      lines := [line] + later;
      FlattenCons(line, later);
      assert text == line + text[stop + 1..];
    }
  }

  // ---- lines survive appending -----------------------------------------------------------

  lemma CompleteLineEnds(text: seq<byte>, start: nat)
    requires EndsWithNewline(ReadLine(text, start))
    ensures var line := ReadLine(text, start);
      start + |line| <= |text| && line == text[start..start + |line|]
      && NewlineFrom(text, start) == start + |line| - 1
  {
    var line := ReadLine(text, start);
    assert line[|line| - 1] == text[start + |line| - 1];
  }

  lemma {:induction false} NewlineAppend(text: seq<byte>, more: seq<byte>, start: nat)
    requires start <= |text| && NewlineFrom(text, start) < |text|
    ensures NewlineFrom(text + more, start) == NewlineFrom(text, start)
    decreases |text| - start
  {
    if text[start] != NEWLINE {
      NewlineAppend(text, more, start + 1);
    }
  }

  lemma ReadLineAppend(text: seq<byte>, more: seq<byte>, start: nat)
    requires EndsWithNewline(ReadLine(text, start))
    ensures ReadLine(text + more, start) == ReadLine(text, start)
  {
    hide NewlineFrom;
    CompleteLineEnds(text, start);
    NewlineAppend(text, more, start);
    var line := ReadLine(text, start);
    assert (text + more)[start..start + |line|] == text[start..start + |line|];
  }

  function EndOf(text: seq<byte>, start: nat): nat {
    start + |Flatten(NewLines(text, start))|
  }

  lemma VisitStep(text: seq<byte>, start: nat)
    requires start <= |text|
    ensures var line := ReadLine(text, start);
      if EndsWithNewline(line)
      then start + |line| <= |text| && line == text[start..start + |line|]
        && NewLines(text, start) == [line] + NewLines(text, start + |line|)
        && Flatten(NewLines(text, start)) == line + Flatten(NewLines(text, start + |line|))
        && EndOf(text, start) == EndOf(text, start + |line|)
      else NewLines(text, start) == [] && EndOf(text, start) == start
  {
    hide ReadLine;
    var line := ReadLine(text, start);
    if EndsWithNewline(line) {
      CompleteLineEnds(text, start);
      FlattenCons(line, NewLines(text, start + |line|));
    }
  }

  lemma {:induction false} VisitBounds(text: seq<byte>, start: nat)
    requires start <= |text|
    ensures EndOf(text, start) <= |text|
    ensures text[start..EndOf(text, start)] == Flatten(NewLines(text, start))
    ensures start < EndOf(text, start) ==> text[EndOf(text, start) - 1] == NEWLINE
    ensures NewLines(text, EndOf(text, start)) == []
    decreases |text| - start
  {
    hide ReadLine, NewLines, Flatten;
    VisitStep(text, start);
    var line := ReadLine(text, start);
    if EndsWithNewline(line) {
      var next := start + |line|;
      VisitBounds(text, next);
      assert text[start..EndOf(text, start)] == text[start..next] + text[next..EndOf(text, next)];
      assert line[|line| - 1] == text[next - 1];
    }
  }

  /**
   * Visiting before and after an append takes the same lines as visiting once at the end: none
   * is split, repeated or skipped.
   */
  lemma {:induction false} VisitsCompose(text: seq<byte>, more: seq<byte>, start: nat)
    requires start <= |text|
    ensures NewLines(text + more, start) == NewLines(text, start) + NewLines(text + more, EndOf(text, start))
    decreases |text| - start
  {
    hide ReadLine, NewLines, Flatten;
    VisitStep(text, start);
    var line := ReadLine(text, start);
    if EndsWithNewline(line) {
      ReadLineAppend(text, more, start);
      VisitStep(text + more, start);
      VisitsCompose(text, more, start + |line|);
    }
  }

  lemma FlattenEmpty<T>()
    ensures Flatten<T>([]) == []
  {
  }

  // ---- one poll --------------------------------------------------------------------------

  function OffsetOf(offsets: map<seq<byte>, nat>, name: seq<byte>): nat {
    if name in offsets then offsets[name] else 0
  }

  /** Parsed records are what `decode` makes of a line; undecodable lines are skipped. */
  function Records<R>(lines: seq<Line>, decode: Line -> Option<R>): seq<R> {
    if lines == [] then []
    else
      var last := match decode(lines[|lines| - 1]) case None => [] case Some(record) => [record];
      Records(lines[..|lines| - 1], decode) + last
  }

  lemma {:induction false} RecordsAppend<R>(a: seq<Line>, b: seq<Line>, decode: Line -> Option<R>)
    ensures Records(a + b, decode) == Records(a, decode) + Records(b, decode)
  {
    if b == [] {
      assert a + b == a;
    } else {
      assert (a + b)[..|a + b| - 1] == a + b[..|b| - 1];
      RecordsAppend(a, b[..|b| - 1], decode);
    }
  }

  /** All lines a poll takes, file by file in the sorted order of `names`. */
  function PolledLines(directory: Directory, names: seq<seq<byte>>, offsets: map<seq<byte>, nat>): seq<Line>
    requires forall i :: 0 <= i < |names| ==> names[i] in directory
  {
    if names == [] then []
    else
      var last := names[|names| - 1];
      PolledLines(directory, names[..|names| - 1], offsets) + NewLines(directory[last], OffsetOf(offsets, last))
  }

  lemma NothingPolled<R>(directory: Directory, offsets: map<seq<byte>, nat>, decode: Line -> Option<R>)
    ensures Records(PolledLines(directory, [], offsets), decode) == []
  {
  }

  lemma PolledNext(directory: Directory, names: seq<seq<byte>>, k: nat, offsets: map<seq<byte>, nat>)
    requires k < |names| && forall i :: 0 <= i < |names| ==> names[i] in directory
    ensures PolledLines(directory, names[..k + 1], offsets)
         == PolledLines(directory, names[..k], offsets) + NewLines(directory[names[k]], OffsetOf(offsets, names[k]))
  {
    hide NewLines;
    assert names[..k + 1][..k] == names[..k];
  }

  /** The offsets dictionary together with the files it refers to. */
  class Tailer {
    var offsets: map<seq<byte>, nat>

    constructor ()
      ensures offsets == map[]
    {
      offsets := map[];
    }

    /** The inner loop of read_new_records for one file. */
    method ReadFile<R>(name: seq<byte>, text: seq<byte>, decode: Line -> Option<R>) returns (records: seq<R>)
      requires OffsetOf(offsets, name) <= |text|
      modifies this
      ensures records == Records(NewLines(text, old(OffsetOf(offsets, name))), decode)
      ensures OffsetOf(offsets, name) == EndOf(text, old(OffsetOf(offsets, name)))
      ensures forall other :: other != name ==> OffsetOf(offsets, other) == old(OffsetOf(offsets, other))
    {
      hide ReadLine, NewLines, Flatten;
      records := [];
      var position := OffsetOf(offsets, name);
      ghost var start, taken: seq<Line> := position, [];
      FlattenEmpty<byte>();
      while true
        invariant start <= position <= |text| && OffsetOf(offsets, name) == position
        invariant position == start + |Flatten(taken)|
        invariant NewLines(text, start) == taken + NewLines(text, position)
        invariant records == Records(taken, decode)
        invariant forall other :: other != name ==> OffsetOf(offsets, other) == old(OffsetOf(offsets, other))
        decreases |text| - position
      {
        VisitStep(text, position);
        var line := ReadLine(text, position);
        if !EndsWithNewline(line) {
          assert taken + [] == taken;
          break;
        }
        position := position + |line|;
        offsets := offsets[name := position];
        FlattenAppend(taken, [line]);
        FlattenCons(line, []);
        assert [line] + [] == [line];
        RecordsAppend(taken, [line], decode);
        taken := taken + [line];
        match decode(line)
        case None =>
        case Some(record) => records := records + [record];
      }
    }

    /** read_new_records: every file of the sorted listing is visited once from its stored offset. */
    method ReadNewRecords<R>(directory: Directory, names: seq<seq<byte>>, decode: Line -> Option<R>)
      returns (records: seq<R>)
      requires forall i :: 0 <= i < |names| ==> names[i] in directory
      requires forall i, j :: 0 <= i < j < |names| ==> names[i] != names[j]
      requires forall i :: 0 <= i < |names| ==> OffsetOf(offsets, names[i]) <= |directory[names[i]]|
      modifies this
      ensures records == Records(PolledLines(directory, names, old(offsets)), decode)
      ensures forall i :: 0 <= i < |names| ==>
                OffsetOf(offsets, names[i]) == EndOf(directory[names[i]], OffsetOf(old(offsets), names[i]))
      ensures forall other :: other !in names ==> OffsetOf(offsets, other) == OffsetOf(old(offsets), other)
    {
      NothingPolled(directory, offsets, decode);
      hide PolledLines, Records, NewLines, EndOf;
      records := [];
      for k := 0 to |names|
        invariant records == Records(PolledLines(directory, names[..k], old(offsets)), decode)
        invariant forall i :: 0 <= i < k ==>
                    OffsetOf(offsets, names[i]) == EndOf(directory[names[i]], OffsetOf(old(offsets), names[i]))
        invariant forall i :: k <= i < |names| ==> OffsetOf(offsets, names[i]) == OffsetOf(old(offsets), names[i])
        invariant forall other :: other !in names ==> OffsetOf(offsets, other) == OffsetOf(old(offsets), other)
      {
        var some := ReadFile(names[k], directory[names[k]], decode);
        PolledNext(directory, names, k, old(offsets));
        RecordsAppend(PolledLines(directory, names[..k], old(offsets)),
                      NewLines(directory[names[k]], OffsetOf(old(offsets), names[k])), decode);
        records := records + some;
      }
      assert names[..|names|] == names;
    }
  }

  // ---- whole runs of appends and polls ---------------------------------------------------

  datatype Event = Append(more: seq<byte>) | Poll

  /** One file's content, its stored offset and every line handed out so far. */
  datatype Tail = Tail(text: seq<byte>, offset: nat, consumed: seq<Line>)

  function Step(t: Tail, event: Event): Tail {
    match event
    case Append(more) => t.(text := t.text + more)
    case Poll => Tail(t.text, EndOf(t.text, t.offset), t.consumed + NewLines(t.text, t.offset))
  }

  function Run(events: seq<Event>): Tail {
    if events == [] then Tail([], 0, []) else Step(Run(events[..|events| - 1]), events[|events| - 1])
  }

  /** The offset sits at zero or just behind a newline, and everything in front of it was handed out once. */
  ghost predicate Exact(t: Tail) {
    t.offset <= |t.text| && (t.offset == 0 || t.text[t.offset - 1] == NEWLINE)
    && Flatten(t.consumed) == t.text[..t.offset]
    && NewLines(t.text, 0) == t.consumed + NewLines(t.text, t.offset)
  }

  lemma {:induction false} RunIsExact(events: seq<Event>)
    ensures Exact(Run(events))
  {
    if events != [] {
      var before := Run(events[..|events| - 1]);
      RunIsExact(events[..|events| - 1]);
      match events[|events| - 1]
      case Append(more) => AppendKeepsExact(before, more);
      case Poll => PollKeepsExact(before);
    }
  }

  lemma AppendKeepsExact(t: Tail, more: seq<byte>)
    requires Exact(t)
    ensures Exact(Step(t, Append(more)))
  {
    hide NewLines, Flatten, EndOf;
    VisitsCompose(t.text, more, 0);
    VisitsCompose(t.text, more, t.offset);
    VisitBounds(t.text, t.offset);
    VisitBounds(t.text, 0);
    SameEnd(t);
    assert (t.text + more)[..t.offset] == t.text[..t.offset];
  }

  /** Having handed out everything up to the offset, a visit from there ends where a visit from zero would. */
  lemma SameEnd(t: Tail)
    requires Exact(t)
    ensures EndOf(t.text, 0) == EndOf(t.text, t.offset)
  {
    hide NewLines, Flatten;
    FlattenAppend(t.consumed, NewLines(t.text, t.offset));
  }

  lemma PollKeepsExact(t: Tail)
    requires Exact(t)
    ensures Exact(Step(t, Poll))
  {
    hide NewLines, Flatten;
    var end := EndOf(t.text, t.offset);
    VisitBounds(t.text, t.offset);
    FlattenAppend(t.consumed, NewLines(t.text, t.offset));
    assert t.text[..end] == t.text[..t.offset] + t.text[t.offset..end];
    var all := t.consumed + NewLines(t.text, t.offset);
    assert all + [] == all;
  }

  /**
   * Exactly once: after any run that ends with a poll, the lines handed out are the completed
   * lines of the file, cut in front of the first line longer than the limit.
   */
  lemma EachLineOnce(events: seq<Event>, lines: seq<Line>, partial: seq<byte>)
    requires events != [] && events[|events| - 1].Poll?
    requires Splits(Run(events).text, lines, partial)
    ensures Run(events).consumed == BeforeOverlong(lines)
  {
    var before, after := Run(events[..|events| - 1]), Run(events);
    RunIsExact(events[..|events| - 1]);
    RunIsExact(events);
    assert after.text[0..] == after.text;
    VisitTakesCompleteLines(after.text, 0, lines, partial);
  }

  lemma {:induction false} BeforeOverlongIsAll(lines: seq<Line>)
    ensures BeforeOverlong(lines) == lines <==> forall i :: 0 <= i < |lines| ==> |lines[i]| <= LINE_LIMIT
  {
    if lines != [] {
      BeforeOverlongIsAll(lines[1..]);
      assert lines == [lines[0]] + lines[1..];
      assert forall i :: 0 < i < |lines| ==> lines[i] == lines[1..][i - 1];
    }
  }

  /** The tailer keeps up with the file exactly when no completed line, newline included, exceeds 1 MiB. */
  lemma KeepsUpIffLinesFit(events: seq<Event>, lines: seq<Line>, partial: seq<byte>)
    requires events != [] && events[|events| - 1].Poll?
    requires Splits(Run(events).text, lines, partial)
    ensures Run(events).consumed == lines <==> forall i :: 0 <= i < |lines| ==> |lines[i]| <= LINE_LIMIT
  {
    EachLineOnce(events, lines, partial);
    BeforeOverlongIsAll(lines);
  }

  // ---- streaming summaries ---------------------------------------------------------------

  /** A JSON value as observe() classifies it. */
  datatype Sample = Int(value: int) | Bool | Other

  function Valid(samples: seq<Sample>): seq<int> {
    if samples == [] then []
    else
      var last := samples[|samples| - 1];
      Valid(samples[..|samples| - 1]) + if last.Int? && last.value >= 0 then [last.value] else []
  }

  predicate IsLeast(m: int, values: seq<int>) { m in values && forall v :: v in values ==> m <= v }
  predicate IsGreatest(m: int, values: seq<int>) { m in values && forall v :: v in values ==> v <= m }

  class MetricRange {
    var count: nat
    var first: Option<int>
    var last: Option<int>
    var minimum: Option<int>
    var maximum: Option<int>

    /** The fixed-size fields summarise `values` as if all of them had been kept. */
    ghost predicate Summarises(values: seq<int>)
      reads this
    {
      count == |values|
      && (values == [] ==> first == None && last == None && minimum == None && maximum == None)
      && (values != [] ==>
            first == Some(values[0]) && last == Some(values[|values| - 1])
            && minimum.Some? && IsLeast(minimum.value, values)
            && maximum.Some? && IsGreatest(maximum.value, values))
    }

    constructor ()
      ensures Summarises([])
    {
      count, first, last, minimum, maximum := 0, None, None, None, None;
    }

    method Observe(sample: Sample, ghost samples: seq<Sample>)
      requires Summarises(Valid(samples))
      modifies this
      ensures Summarises(Valid(samples + [sample]))
    {
      assert (samples + [sample])[..|samples|] == samples;
      if !sample.Int? || sample.value < 0 { return; }
      var value := sample.value;
      count := count + 1;
      if first.None? { first := Some(value); }
      last := Some(value);
      minimum := if minimum.None? || value < minimum.value then Some(value) else minimum;
      maximum := if maximum.None? || value > maximum.value then Some(value) else maximum;
    }
  }

  /** observe() over a whole series of samples. */
  method ObserveAll(range: MetricRange, samples: seq<Sample>)
    requires range.Summarises([])
    modifies range
    ensures range.Summarises(Valid(samples))
  {
    for k := 0 to |samples|
      invariant range.Summarises(Valid(samples[..k]))
    {
      assert samples[..k] + [samples[k]] == samples[..k + 1];
      range.Observe(samples[k], samples[..k]);
    }
    assert samples[..|samples|] == samples;
  }
}
