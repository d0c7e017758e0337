/**
 The JPEG marker walk of the camera preview client against an independent grammar of marker
 segments, as in sections B.1.1.2 to B.1.1.4 and B.2.2 of ITU-T T.81.
 */
module JpegGeometry {
  import opened Options

  newtype Byte = x: int | 0 <= x < 256

  datatype Geometry = Geometry(height: nat, width: nat)

  const MAX_JPEG_BYTES := 2097152

  function Word(high: Byte, low: Byte): nat { 256 * high as int + low as int }

  predicate IsFrame(marker: Byte) {
    0xC0 <= marker <= 0xCF && marker != 0xC4 && marker != 0xC8 && marker != 0xCC
  }

  /** The first check: size, start of image and end of image. */
  predicate Enclosed(b: seq<Byte>) {
    && 4 <= |b| <= MAX_JPEG_BYTES && b[0] == 0xFF && b[1] == 0xD8 && b[|b| - 2] == 0xFF && b[|b| - 1] == 0xD9
  }

  // ---------- the walk ----------

  /** The first byte that is not fill; the end of image marker guarantees one. */
  function AfterFill(b: seq<Byte>, offset: nat): (r: nat)
    requires Enclosed(b) && offset < |b|
    ensures offset <= r < |b| && b[r] != 0xFF
    ensures forall i :: offset <= i < r ==> b[i] == 0xFF
    decreases |b| - offset
  {
    if b[offset] == 0xFF then AfterFill(b, offset + 1) else offset
  }

  function Walk(b: seq<Byte>, offset: nat): Option<Geometry>
    requires Enclosed(b) && offset <= |b|
    decreases |b| - offset
  {
    if offset + 4 > |b| || b[offset] != 0xFF then None
    else
      var at := AfterFill(b, offset + 1);
      var marker, length := b[at], at + 1;
      if marker == 0xDA || marker == 0xD9 || length + 2 > |b| then None
      else
        var size := Word(b[length], b[length + 1]);
        if size < 2 || length + size > |b| then None
        else if IsFrame(marker) then
          if size < 8 then None
          else Some(Geometry(Word(b[length + 3], b[length + 4]), Word(b[length + 5], b[length + 6])))
        else Walk(b, length + size)
  }

  method SkipFill(b: seq<Byte>, start: nat) returns (offset: nat)
    requires Enclosed(b) && start < |b|
    ensures offset == AfterFill(b, start)
  {
    offset := start;
    while b[offset] == 0xFF
      invariant start <= offset < |b|
      invariant AfterFill(b, offset) == AfterFill(b, start)
      decreases |b| - offset
    {
      offset := offset + 1;
    }
  }

  /** Every read is in range and the loop ends, on every buffer that passes the first check. */
  method ReadGeometry(b: seq<Byte>) returns (r: Option<Geometry>)
    ensures r == if Enclosed(b) then Walk(b, 2) else None
  {
    if !(4 <= |b| <= MAX_JPEG_BYTES && b[0] == 0xFF && b[1] == 0xD8 && b[|b| - 2] == 0xFF && b[|b| - 1] == 0xD9) {
      return None;
    }
    var offset := 2;
    while offset + 4 <= |b|
      invariant 2 <= offset <= |b|
      invariant Walk(b, offset) == Walk(b, 2)
    {
      if b[offset] != 0xFF { return None; }
      offset := SkipFill(b, offset + 1);
      var marker := b[offset];
      offset := offset + 1;
      if marker == 0xDA || marker == 0xD9 || offset + 2 > |b| { return None; }
      var size := Word(b[offset], b[offset + 1]);
      if size < 2 || offset + size > |b| { return None; }
      if IsFrame(marker) {
        if size < 8 { return None; }
        return Some(Geometry(Word(b[offset + 3], b[offset + 4]), Word(b[offset + 5], b[offset + 6])));
      }
      offset := offset + size;
    }
    r := None;
  }

  // ---------- the grammar ----------

  /** A marker segment: fill bytes, a marker, and a payload the length field counts with itself. */
  datatype Segment = Segment(fill: nat, marker: Byte, payload: seq<Byte>)

  /**
   Every marker but SOS, EOI and fill is taken to carry a length, as the code reads it. ITU-T T.81
   has no length after RSTn, TEM and SOI; the grammar counts those as segments too.
   */
  predicate WellFormed(s: Segment) {
    s.marker != 0xFF && s.marker != 0xDA && s.marker != 0xD9 && |s.payload| + 2 < 65536
  }

  function Fill(n: nat): (r: seq<Byte>)
    ensures |r| == n && forall i :: 0 <= i < n ==> r[i] == 0xFF
  {
    if n == 0 then [] else [0xFF] + Fill(n - 1)
  }

  function Length(n: nat): (r: seq<Byte>)
    requires n < 65536
    ensures |r| == 2 && Word(r[0], r[1]) == n
  {
    [(n / 256) as Byte, (n % 256) as Byte]
  }

  function Encode(s: Segment): seq<Byte>
    requires WellFormed(s)
  {
    [0xFF] + Fill(s.fill) + [s.marker] + Length(|s.payload| + 2) + s.payload
  }

  function EncodeAll(ss: seq<Segment>): seq<Byte>
    requires forall i :: 0 <= i < |ss| ==> WellFormed(ss[i])
  {
    if ss == [] then [] else Encode(ss[0]) + EncodeAll(ss[1..])
  }

  /** The start of frame markers of Table B.1 of ITU-T T.81. */
  predicate StartOfFrame(marker: Byte) {
    marker in {0xC0, 0xC1, 0xC2, 0xC3, 0xC5, 0xC6, 0xC7, 0xC9, 0xCA, 0xCB, 0xCD, 0xCE, 0xCF}
  }

  lemma FrameMarkers(marker: Byte)
    ensures IsFrame(marker) <==> StartOfFrame(marker)
  {
  }

  /** A frame header names the sample precision, then the height, then the width. */
  predicate Frame(s: Segment, g: Geometry) {
    && WellFormed(s) && StartOfFrame(s.marker) && |s.payload| >= 6
    && g == Geometry(Word(s.payload[1], s.payload[2]), Word(s.payload[3], s.payload[4]))
  }

  ghost predicate Other(ss: seq<Segment>) {
    forall i :: 0 <= i < |ss| ==> WellFormed(ss[i]) && !StartOfFrame(ss[i].marker)
  }

  /** From an offset on: segments that are no frame headers, then a frame header of this geometry, then anything. */
  ghost predicate Reads(b: seq<Byte>, offset: nat, ss: seq<Segment>, frame: Segment, g: Geometry)
    requires offset <= |b|
  {
    Other(ss) && Frame(frame, g) && EncodeAll(ss) + Encode(frame) <= b[offset..]
  }

  // ---------- the walk reads the grammar ----------

  lemma {:induction false} EncodedParts(s: Segment)
    requires WellFormed(s)
    ensures var e, at := Encode(s), 1 + s.fill;
            && |e| == at + 3 + |s.payload| && e[0] == 0xFF && e[at] == s.marker
            && (forall i :: 1 <= i < at ==> e[i] == 0xFF)
            && Word(e[at + 1], e[at + 2]) == |s.payload| + 2 && e[at + 3..] == s.payload
  {
    var e, at, size := Encode(s), 1 + s.fill, Length(|s.payload| + 2);
    assert forall i :: 1 <= i < at ==> e[i] == Fill(s.fill)[i - 1];
    assert e[at + 1] == size[0] && e[at + 2] == size[1];
  }

  /** Where the parts of an encoded segment stand in the buffer. */
  lemma {:induction false} SegmentAt(b: seq<Byte>, offset: nat, s: Segment)
    requires Enclosed(b) && offset <= |b| && WellFormed(s) && Encode(s) <= b[offset..]
    ensures var at := offset + 1 + s.fill;
            && at + 3 + |s.payload| <= |b| && b[offset] == 0xFF && b[at] == s.marker && AfterFill(b, offset + 1) == at
            && Word(b[at + 1], b[at + 2]) == |s.payload| + 2 && b[at + 3..at + 3 + |s.payload|] == s.payload
            && offset + |Encode(s)| == at + 3 + |s.payload|
  {
    EncodedParts(s);
    hide Encode, Word;
    var e, at := Encode(s), offset + 1 + s.fill;
    forall i | 0 <= i < |e| ensures b[offset + i] == e[i] { assert b[offset..][i] == e[i]; }
    assert b[offset + 0] == e[0] && b[offset + (1 + s.fill)] == e[1 + s.fill];
    assert b[offset + (2 + s.fill)] == e[2 + s.fill] && b[offset + (3 + s.fill)] == e[3 + s.fill];
    forall i | offset + 1 <= i < at ensures b[i] == 0xFF { assert b[i] == b[offset + (i - offset)]; }
    FillEnds(b, offset + 1, at);
    var p, q := b[at + 3..at + 3 + |s.payload|], e[4 + s.fill..];
    forall i | 0 <= i < |q| ensures p[i] == q[i] {
      assert p[i] == b[offset + (4 + s.fill + i)] && q[i] == e[4 + s.fill + i];
    }
  }

  lemma {:induction false} FillEnds(b: seq<Byte>, offset: nat, at: nat)
    requires Enclosed(b) && offset <= at < |b| && b[at] != 0xFF && forall i :: offset <= i < at ==> b[i] == 0xFF
    ensures AfterFill(b, offset) == at
    decreases at - offset
  {
    if offset < at { FillEnds(b, offset + 1, at); }
  }

  lemma {:induction false} WalkAtFrame(b: seq<Byte>, offset: nat, frame: Segment, g: Geometry)
    requires Enclosed(b) && offset <= |b| && Frame(frame, g) && Encode(frame) <= b[offset..]
    ensures Walk(b, offset) == Some(g)
  {
    FrameMarkers(frame.marker);
    hide Encode, AfterFill, StartOfFrame, IsFrame;
    SegmentAt(b, offset, frame);
    var at := offset + 1 + frame.fill;
    var p := b[at + 3..at + 3 + |frame.payload|];
    assert p[1] == b[at + 4] && p[2] == b[at + 5] && p[3] == b[at + 6] && p[4] == b[at + 7];
  }

  lemma {:induction false} WalkPasses(b: seq<Byte>, offset: nat, s: Segment)
    requires Enclosed(b) && offset <= |b| && WellFormed(s) && !StartOfFrame(s.marker) && Encode(s) <= b[offset..]
    ensures offset + |Encode(s)| <= |b| && Walk(b, offset) == Walk(b, offset + |Encode(s)|)
  {
    FrameMarkers(s.marker);
    hide Encode, AfterFill, StartOfFrame, IsFrame;
    SegmentAt(b, offset, s);
  }

  lemma {:induction false} ReadsFrame(b: seq<Byte>, offset: nat, frame: Segment, g: Geometry)
    requires offset <= |b| && Reads(b, offset, [], frame, g)
    ensures Frame(frame, g) && WellFormed(frame) && Encode(frame) <= b[offset..]
  {
    hide Encode;
    assert EncodeAll([]) + Encode(frame) == Encode(frame);
  }

  lemma {:induction false} ReadsNext(b: seq<Byte>, offset: nat, ss: seq<Segment>, frame: Segment, g: Geometry)
    requires offset <= |b| && Reads(b, offset, ss, frame, g) && ss != []
    ensures WellFormed(ss[0]) && !StartOfFrame(ss[0].marker) && Encode(ss[0]) <= b[offset..]
    ensures offset + |Encode(ss[0])| <= |b| && Reads(b, offset + |Encode(ss[0])|, ss[1..], frame, g)
  {
    FrameWellFormed(frame, g);
    hide Encode, Frame;
    var e, more, last := Encode(ss[0]), EncodeAll(ss[1..]), Encode(frame);
    assert EncodeAll(ss) == e + more;
    hide EncodeAll;
    Regroup(e, more, last);
    PrefixSplits(e, more + last, b[offset..]);
    SliceOfSlice(b, offset, |e|);
  }

  /** Every frame header reached through other segments is what the walk returns. */
  lemma {:induction false} WalkFinds(b: seq<Byte>, offset: nat, ss: seq<Segment>, frame: Segment, g: Geometry)
    requires Enclosed(b) && offset <= |b| && Reads(b, offset, ss, frame, g)
    ensures Walk(b, offset) == Some(g)
    decreases ss
  {
    hide Encode, Walk, Reads, Enclosed;
    if ss == [] {
      ReadsFrame(b, offset, frame, g);
      WalkAtFrame(b, offset, frame, g);
    } else {
      ReadsNext(b, offset, ss, frame, g);
      WalkPasses(b, offset, ss[0]);
      WalkFinds(b, offset + |Encode(ss[0])|, ss[1..], frame, g);
    }
  }

  lemma {:induction false} Regroup(a: seq<Byte>, c: seq<Byte>, d: seq<Byte>)
    ensures a + c + d == a + (c + d)
  {
  }

  lemma {:induction false} SliceOfSlice(b: seq<Byte>, offset: nat, n: nat)
    requires offset + n <= |b|
    ensures b[offset + n..] == b[offset..][n..]
  {
  }

  lemma {:induction false} PrefixSplits(a: seq<Byte>, c: seq<Byte>, all: seq<Byte>)
    requires a + c <= all
    ensures a <= all && c <= all[|a|..]
  {
    assert all[..|a| + |c|] == a + c;
    assert all[|a|..][..|c|] == c;
  }

  lemma {:induction false} PrefixJoins(a: seq<Byte>, c: seq<Byte>, all: seq<Byte>)
    requires a <= all && c <= all[|a|..]
    ensures a + c <= all
  {
  }

  /** The segment the walk stands on, read off the buffer. */
  function SegmentRead(b: seq<Byte>, offset: nat, at: nat, size: nat): Segment
    requires offset < at < |b| && 2 <= size && at + 1 + size <= |b|
  {
    Segment(at - offset - 1, b[at], b[at + 3..at + 1 + size])
  }

  lemma {:induction false} SegmentReadIs(b: seq<Byte>, offset: nat, at: nat, size: nat)
    requires offset < at < |b| && 2 <= size < 65536 && at + 1 + size <= |b| && b[at] != 0xFF && b[at] != 0xDA
             && b[at] != 0xD9
    requires forall i :: offset <= i < at ==> b[i] == 0xFF
    requires size == Word(b[at + 1], b[at + 2])
    ensures WellFormed(SegmentRead(b, offset, at, size))
    ensures Encode(SegmentRead(b, offset, at, size)) == b[offset..at + 1 + size]
  {
    var s := SegmentRead(b, offset, at, size);
    assert Fill(s.fill) == b[offset + 1..at];
    WordInjective(Length(size)[0], Length(size)[1], b[at + 1], b[at + 2]);
    assert Length(size) == b[at + 1..at + 3];
    assert b[offset..at + 1 + size]
           == [b[offset]] + b[offset + 1..at] + [b[at]] + b[at + 1..at + 3] + b[at + 3..at + 1 + size];
  }

  lemma WordInjective(a: Byte, b: Byte, c: Byte, d: Byte)
    requires Word(a, b) == Word(c, d)
    ensures a == c && b == d
  {
  }

  /** A walk that returns something stands on a segment: a frame header of that geometry, or one it passes. */
  lemma {:induction false} WalkStands(b: seq<Byte>, offset: nat) returns (s: Segment)
    requires Enclosed(b) && offset <= |b| && Walk(b, offset).Some?
    ensures WellFormed(s) && Encode(s) <= b[offset..] && offset < offset + |Encode(s)| <= |b|
    ensures if StartOfFrame(s.marker) then Frame(s, Walk(b, offset).value)
            else Walk(b, offset) == Walk(b, offset + |Encode(s)|)
  {
    hide Encode, StartOfFrame, IsFrame;
    var at := AfterFill(b, offset + 1);
    var size := Word(b[at + 1], b[at + 2]);
    assert forall i :: offset <= i < at ==> b[i] == 0xFF;
    SegmentReadIs(b, offset, at, size);
    s := SegmentRead(b, offset, at, size);
    FrameMarkers(s.marker);
    assert b[offset..][..at + 1 + size - offset] == b[offset..at + 1 + size];
  }

  /** Whatever the walk returns is the first frame header of the grammar. */
  lemma {:induction false} WalkFound(b: seq<Byte>, offset: nat) returns (ss: seq<Segment>, frame: Segment)
    requires Enclosed(b) && offset <= |b| && Walk(b, offset).Some?
    ensures Reads(b, offset, ss, frame, Walk(b, offset).value)
    decreases |b| - offset
  {
    hide Encode, Walk, Frame, Enclosed, WellFormed;
    var s := WalkStands(b, offset);
    if StartOfFrame(s.marker) {
      FrameWellFormed(s, Walk(b, offset).value);
      ss, frame := [], s;
      assert EncodeAll(ss) + Encode(frame) == Encode(s);
    } else {
      var rest;
      rest, frame := WalkFound(b, offset + |Encode(s)|);
      ss := [s] + rest;
      FrameWellFormed(frame, Walk(b, offset).value);
      assert ss[1..] == rest;
      assert b[offset + |Encode(s)|..] == b[offset..][|Encode(s)|..];
      PrefixJoins(Encode(s), EncodeAll(rest) + Encode(frame), b[offset..]);
      assert EncodeAll(ss) + Encode(frame) == Encode(s) + (EncodeAll(rest) + Encode(frame));
    }
  }

  lemma FrameWellFormed(s: Segment, g: Geometry)
    requires Frame(s, g)
    ensures WellFormed(s)
  {
  }

  ghost predicate HasFrame(b: seq<Byte>, g: Geometry)
    requires |b| >= 2
  {
    exists ss, frame :: Reads(b, 2, ss, frame, g)
  }

  /**
   The walk returns a geometry exactly when the buffer is a first frame header of that geometry
   behind other segments.
   */
  lemma {:induction false} WalkIffGrammar(b: seq<Byte>, g: Geometry)
    requires Enclosed(b)
    ensures Walk(b, 2) == Some(g) <==> HasFrame(b, g)
  {
    if Walk(b, 2) == Some(g) {
      var ss, frame := WalkFound(b, 2);
    }
    if HasFrame(b, g) {
      var ss, frame :| Reads(b, 2, ss, frame, g);
      WalkFinds(b, 2, ss, frame, g);
    }
  }

  /** A start of image, an end of image, and at most two megabytes in all. */
  predicate Image(b: seq<Byte>) {
    |b| <= 2 * 1024 * 1024 && |b| >= 4 && b[..2] == [0xFF, 0xD8] && b[|b| - 2..] == [0xFF, 0xD9]
  }

  lemma EnclosedIff(b: seq<Byte>)
    ensures Enclosed(b) <==> Image(b)
  {
    if |b| >= 4 {
      assert b[..2] == [b[0], b[1]];
      assert b[|b| - 2..] == [b[|b| - 2], b[|b| - 1]];
    }
  }

  /** A geometry is returned exactly for an image whose first frame header has it; nothing else has one. */
  lemma GeometryIff(b: seq<Byte>, g: Geometry)
    ensures (if Enclosed(b) then Walk(b, 2) else None) == Some(g) <==> Image(b) && HasFrame(b, g)
  {
    EnclosedIff(b);
    hide Walk, Image, Enclosed, HasFrame;
    if Enclosed(b) { WalkIffGrammar(b, g); }
  }
}
