/** The JPEG marker walk that finds the dimensions of a baseline JFIF capture. */
module JpegWalk {
  import opened Bytes

  const FILL: byte := 0xFF
  const SOI: byte := 0xD8
  const EOI: byte := 0xD9
  const SOF0: byte := 0xC0
  const SOS: byte := 0xDA
  const JFIF: seq<byte> := [74, 70, 73, 70, 0]

  datatype Size = Size(width: nat, height: nat)

  // ---- what a walkable file looks like -----------------------------------------------------

  /**
   * A piece in front of the frame header: some fill bytes, then either a marker without a
   * segment (SOI, EOI) or any other marker but SOF0 and SOS with its parameters.
   */
  datatype Piece = Bare(fills: nat, marker: byte) | Segment(fills: nat, marker: byte, parameters: seq<byte>)

  predicate GoodPiece(p: Piece) {
    p.fills >= 1 && p.marker != FILL
    && match p
       case Bare(_, marker) => marker == SOI || marker == EOI
       case Segment(_, marker, parameters) =>
         marker != SOI && marker != EOI && marker != SOF0 && marker != SOS && |parameters| + 2 < 0x1_0000
  }

  function Fills(count: nat): seq<byte> { seq(count, _ => FILL) }

  /** A marker segment: its length counts the two length bytes (section B.1.1.4 of ITU-T T.81). */
  function Parameters(parameters: seq<byte>): seq<byte> { BigEndian(|parameters| + 2, 2) + parameters }

  function Write(p: Piece): seq<byte> {
    Fills(p.fills) + [p.marker] + match p case Bare(_, _) => [] case Segment(_, _, ps) => Parameters(ps)
  }

  function WriteAll(pieces: seq<Piece>): seq<byte> {
    if pieces == [] then [] else Write(pieces[0]) + WriteAll(pieces[1..])
  }

  /** Frame header parameters (section B.2.2): precision 8, height, width, three components. */
  predicate BaselineFrame(frame: seq<byte>, size: Size) {
    6 <= |frame| && |frame| + 2 < 0x1_0000 && frame[0] == 8 && frame[5] == 3
    && frame[1..3] == BigEndian(size.height, 2) && frame[3..5] == BigEndian(size.width, 2)
    && size.height < 0x1_0000 && size.width < 0x1_0000
  }

  function FrameHeader(fills: nat, frame: seq<byte>): seq<byte> { Fills(fills) + [SOF0] + Parameters(frame) }

  /** `bytes` is pieces, then a baseline frame header of the given size, then anything. */
  predicate Walkable(bytes: seq<byte>, pieces: seq<Piece>, fills: nat, frame: seq<byte>, rest: seq<byte>, size: Size) {
    fills >= 1 && BaselineFrame(frame, size) && (forall i :: 0 <= i < |pieces| ==> GoodPiece(pieces[i]))
    && bytes == WriteAll(pieces) + FrameHeader(fills, frame) + rest
  }

  // ---- the walk ----------------------------------------------------------------------------

  /** The number of fill bytes in front of `bytes`. */
  function FillCount(bytes: seq<byte>): (n: nat)
    ensures n <= |bytes| && bytes[..n] == Fills(n) && (n < |bytes| ==> bytes[n] != FILL)
  {
    if bytes == [] || bytes[0] != FILL then 0 else 1 + FillCount(bytes[1..])
  }

  /** The walk over what is left of the image, None where the code raises. */
  function Walk(bytes: seq<byte>): Option<Size>
    decreases |bytes|, 0
  {
    if |bytes| < 4 || bytes[0] != FILL then None
    else
      var fills := FillCount(bytes);
      if fills >= |bytes| then None else AtMarker(bytes[fills], bytes[fills + 1..])
  }

  function AtMarker(marker: byte, after: seq<byte>): Option<Size>
    decreases |after|, 1
  {
    if marker == SOI || marker == EOI then Walk(after)
    else if |after| < 2 then None
    else
      var length := FromBigEndian(after[..2]);
      if length < 2 || length > |after| then None
      else if marker == SOF0 then ReadFrame(after[2..length])
      else if marker == SOS then None
      else Walk(after[length..])
  }

  function ReadFrame(segment: seq<byte>): Option<Size> {
    if |segment| < 6 || segment[0] != 8 || segment[5] != 3 then None
    else Some(Size(FromBigEndian(segment[3..5]), FromBigEndian(segment[1..3])))
  }

  // ---- the walk returns exactly the first baseline frame header ---------------------------

  lemma {:induction false} FillCountOf(count: nat, rest: seq<byte>)
    requires rest != [] && rest[0] != FILL
    ensures FillCount(Fills(count) + rest) == count
  {
    var bytes := Fills(count) + rest;
    if count > 0 {
      assert bytes[1..] == Fills(count - 1) + rest;
      FillCountOf(count - 1, rest);
    }
  }

  lemma ParametersOf(parameters: seq<byte>, rest: seq<byte>)
    requires |parameters| + 2 < 0x1_0000
    ensures var after := Parameters(parameters) + rest; var length := |parameters| + 2;
      FromBigEndian(after[..2]) == length && after[2..length] == parameters && after[length..] == rest
  {
    Widths();
    var after := Parameters(parameters) + rest;
    assert after[..2] == BigEndian(|parameters| + 2, 2);
    BigEndianRoundTrip(|parameters| + 2, 2);
  }

  lemma FrameRead(frame: seq<byte>, size: Size)
    requires BaselineFrame(frame, size)
    ensures ReadFrame(frame) == Some(size)
  {
    Widths();
    BigEndianRoundTrip(size.height, 2);
    BigEndianRoundTrip(size.width, 2);
  }

  lemma WalkToMarker(fills: nat, marker: byte, after: seq<byte>)
    requires fills >= 1 && marker != FILL && |after| >= 2
    ensures Walk(Fills(fills) + ([marker] + after)) == AtMarker(marker, after)
  {
    hide AtMarker;
    var bytes := Fills(fills) + ([marker] + after);
    FillCountOf(fills, [marker] + after);
    assert bytes[fills + 1..] == after;
  }

  lemma WalkPastPiece(p: Piece, rest: seq<byte>)
    requires GoodPiece(p) && |rest| >= 4
    ensures Walk(Write(p) + rest) == Walk(rest)
  {
    hide Walk, FromBigEndian, Fills;
    var tail := match p case Bare(_, _) => rest case Segment(_, _, ps) => Parameters(ps) + rest;
    assert Write(p) + rest == Fills(p.fills) + ([p.marker] + tail);
    WalkToMarker(p.fills, p.marker, tail);
    if p.Segment? {
      ParametersOf(p.parameters, rest);
    }
  }

  lemma WalkAtFrame(fills: nat, frame: seq<byte>, rest: seq<byte>, size: Size)
    requires fills >= 1 && BaselineFrame(frame, size)
    ensures Walk(FrameHeader(fills, frame) + rest) == Some(size)
  {
    hide Walk, FromBigEndian, BaselineFrame, Fills, ReadFrame;
    FrameFits(frame, size);
    var tail := Parameters(frame) + rest;
    assert FrameHeader(fills, frame) + rest == Fills(fills) + ([SOF0] + tail);
    WalkToMarker(fills, SOF0, tail);
    ParametersOf(frame, rest);
    FrameRead(frame, size);
  }

  lemma FrameFits(frame: seq<byte>, size: Size)
    requires BaselineFrame(frame, size)
    ensures |frame| + 2 < 0x1_0000
  {
  }

  lemma {:induction false} WalkReturnsFrame(pieces: seq<Piece>, fills: nat, frame: seq<byte>, rest: seq<byte>, size: Size)
    requires fills >= 1 && BaselineFrame(frame, size) && forall i :: 0 <= i < |pieces| ==> GoodPiece(pieces[i])
    ensures Walk(WriteAll(pieces) + FrameHeader(fills, frame) + rest) == Some(size)
    decreases |pieces|
  {
    hide Walk, BaselineFrame, GoodPiece, Write;
    if pieces == [] {
      assert WriteAll(pieces) + FrameHeader(fills, frame) == FrameHeader(fills, frame);
      WalkAtFrame(fills, frame, rest, size);
    } else {
      var later := WriteAll(pieces[1..]) + FrameHeader(fills, frame) + rest;
      assert WriteAll(pieces) + FrameHeader(fills, frame) + rest == Write(pieces[0]) + later;
      WalkPastPiece(pieces[0], later);
      WalkReturnsFrame(pieces[1..], fills, frame, rest, size);
    }
  }

  lemma SplitAt(bytes: seq<byte>, i: nat)
    requires i < |bytes|
    ensures bytes == bytes[..i] + [bytes[i]] + bytes[i + 1..]
  {
  }

  lemma SplitMarker(bytes: seq<byte>)
    requires FillCount(bytes) < |bytes|
    ensures var fills := FillCount(bytes); bytes == Fills(fills) + [bytes[fills]] + bytes[fills + 1..]
  {
    hide Fills, FillCount;
    SplitAt(bytes, FillCount(bytes));
  }

  lemma SplitParameters(after: seq<byte>)
    requires |after| >= 2 && 2 <= FromBigEndian(after[..2]) <= |after|
    ensures var length := FromBigEndian(after[..2]);
      length < 0x1_0000 && after == Parameters(after[2..length]) + after[length..]
  {
    Widths();
    FromBigEndianRoundTrip(after[..2]);
    var length := FromBigEndian(after[..2]);
    assert after == after[..2] + after[2..length] + after[length..];
  }

  lemma FrameWritten(frame: seq<byte>, size: Size)
    requires ReadFrame(frame) == Some(size) && |frame| + 2 < 0x1_0000
    ensures BaselineFrame(frame, size)
  {
    Widths();
    FromBigEndianRoundTrip(frame[1..3]);
    FromBigEndianRoundTrip(frame[3..5]);
  }

  lemma {:induction false} WalkedIsWalkable(bytes: seq<byte>, size: Size)
    returns (pieces: seq<Piece>, fills: nat, frame: seq<byte>, rest: seq<byte>)
    requires Walk(bytes) == Some(size)
    ensures Walkable(bytes, pieces, fills, frame, rest, size)
    decreases |bytes|, 2
  {
    hide FromBigEndian, BaselineFrame, ReadFrame, FillCount, Fills, AtMarker;
    fills := FillCount(bytes);
    SplitMarker(bytes);
    assert fills >= 1 by { FillsOfStart(bytes); }
    pieces, fills, frame, rest := MarkedIsWalkable(bytes, fills, bytes[fills], bytes[fills + 1..], size);
  }

  lemma FillsOfStart(bytes: seq<byte>)
    requires bytes != [] && bytes[0] == FILL
    ensures FillCount(bytes) >= 1
  {
  }

  lemma {:induction false} MarkedIsWalkable(bytes: seq<byte>, count: nat, marker: byte, after: seq<byte>, size: Size)
    returns (pieces: seq<Piece>, fills: nat, frame: seq<byte>, rest: seq<byte>)
    requires count >= 1 && marker != FILL && bytes == Fills(count) + [marker] + after
    requires AtMarker(marker, after) == Some(size)
    ensures Walkable(bytes, pieces, fills, frame, rest, size)
    decreases |bytes|, 1
  {
    hide FromBigEndian, BaselineFrame, ReadFrame, FillCount, Walk;
    if marker == SOI || marker == EOI {
      assert bytes == Write(Bare(count, marker)) + after;
      pieces, fills, frame, rest := PrependPiece(Bare(count, marker), bytes, after, size);
    } else {
      SplitParameters(after);
      var length := FromBigEndian(after[..2]);
      if marker == SOF0 {
        pieces, fills, frame, rest := [], count, after[2..length], after[length..];
        FrameWritten(frame, size);
        assert bytes == WriteAll(pieces) + FrameHeader(fills, frame) + rest;
      } else {
        var p := Segment(count, marker, after[2..length]);
        assert bytes == Write(p) + after[length..];
        pieces, fills, frame, rest := PrependPiece(p, bytes, after[length..], size);
      }
    }
  }

  lemma PrependPiece(p: Piece, bytes: seq<byte>, after: seq<byte>, size: Size)
    returns (pieces: seq<Piece>, fills: nat, frame: seq<byte>, rest: seq<byte>)
    requires GoodPiece(p) && bytes == Write(p) + after && |after| < |bytes| && Walk(after) == Some(size)
    ensures Walkable(bytes, pieces, fills, frame, rest, size)
    decreases |bytes|, 0
  {
    hide Walk, BaselineFrame, Write, FrameHeader;
    pieces, fills, frame, rest := WalkedIsWalkable(after, size);
    assert ([p] + pieces)[1..] == pieces;
    assert bytes == Write(p) + WriteAll(pieces) + FrameHeader(fills, frame) + rest;
    pieces := [p] + pieces;
  }

  /** On any bytes the walk answers exactly when they are walkable, with the size in the frame header. */
  lemma WalkLanguage(bytes: seq<byte>, size: Size)
    ensures Walk(bytes) == Some(size)
       <==> exists pieces, fills, frame, rest :: Walkable(bytes, pieces, fills, frame, rest, size)
  {
    hide *;
    if Walk(bytes) == Some(size) {
      var pieces, fills, frame, rest := WalkedIsWalkable(bytes, size);
    }
    if pieces, fills, frame, rest :| Walkable(bytes, pieces, fills, frame, rest, size) {
      WalkableHasSize(bytes, pieces, fills, frame, rest, size);
    }
  }

  lemma WalkableHasSize(bytes: seq<byte>, pieces: seq<Piece>, fills: nat, frame: seq<byte>, rest: seq<byte>, size: Size)
    requires Walkable(bytes, pieces, fills, frame, rest, size)
    ensures Walk(bytes) == Some(size)
  {
    hide Walk, BaselineFrame, WriteAll, FrameHeader, GoodPiece;
    WalkReturnsFrame(pieces, fills, frame, rest, size);
  }

  /** The signature test in front of the walk. */
  predicate JfifStart(image: seq<byte>) {
    |image| >= 20 && image[..4] == [FILL, SOI, FILL, 0xE0] && image[6..11] == JFIF
  }

  /** The inner loop: the first position from `start` on that holds no fill byte. */
  method SkipFills(image: seq<byte>, start: nat) returns (byteIndex: nat)
    requires start <= |image|
    ensures byteIndex == start + FillCount(image[start..])
  {
    byteIndex := start;
    while byteIndex < |image| && image[byteIndex] == FILL
      invariant start <= byteIndex <= |image|
      invariant FillCount(image[start..]) == byteIndex - start + FillCount(image[byteIndex..])
    {
      assert image[byteIndex..][1..] == image[byteIndex + 1..];
      byteIndex := byteIndex + 1;
    }
  }

  /** _read_jpeg_dimensions, reading every byte inside the image. */
  method ReadJpegDimensions(image: seq<byte>) returns (r: Option<Size>)
    ensures r == if JfifStart(image) then Walk(image[2..]) else None
  {
    hide FillCount, FromBigEndian;
    if |image| < 20 || image[..4] != [FILL, SOI, FILL, 0xE0] || image[6..11] != JFIF { return None; }
    var byteIndex := 2;
    while byteIndex + 4 <= |image|
      invariant 2 <= byteIndex <= |image| && Walk(image[2..]) == Walk(image[byteIndex..])
      decreases |image| - byteIndex
    {
      if image[byteIndex] != FILL { return None; }
      ghost var start := byteIndex;
      byteIndex := SkipFills(image, byteIndex);
      if byteIndex >= |image| { break; }
      ghost var after := image[byteIndex + 1..];
      MarkerAt(image, start, byteIndex);
      var marker := image[byteIndex];
      byteIndex := byteIndex + 1;
      if marker == SOI || marker == EOI { continue; }
      if byteIndex + 2 > |image| { break; }
      assert after[..2] == image[byteIndex..byteIndex + 2];
      var segmentLength := FromBigEndian(image[byteIndex..byteIndex + 2]);
      if segmentLength < 2 || byteIndex + segmentLength > |image| { return None; }
      if marker == SOF0 {
        var segment := image[byteIndex + 2..byteIndex + segmentLength];
        assert after[2..segmentLength] == segment;
        if |segment| < 6 || segment[0] != 8 || segment[5] != 3 { return None; }
        return Some(Size(FromBigEndian(segment[3..5]), FromBigEndian(segment[1..3])));
      }
      if marker == SOS { break; }
      assert after[segmentLength..] == image[byteIndex + segmentLength..];
      byteIndex := byteIndex + segmentLength;
    }
    return None;
  }

  lemma MarkerAt(image: seq<byte>, start: nat, markerAt: nat)
    requires start + 4 <= |image| && image[start] == FILL
    requires markerAt == start + FillCount(image[start..]) < |image|
    ensures Walk(image[start..]) == AtMarker(image[markerAt], image[markerAt + 1..])
  {
    hide AtMarker, FillCount;
    var bytes, fills := image[start..], FillCount(image[start..]);
    assert bytes[fills] == image[markerAt] && bytes[fills + 1..] == image[markerAt + 1..];
  }
}
