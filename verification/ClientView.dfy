/** What a client reads of the chunks that are written to it.

    Chunks that do not end in a blank line run into the next one, so what a client
    reads need not be what was written. */
module ClientView {
  import opened Basics
  import opened Frames
  import opened FrameLaws
  import opened Pump
  import opened PumpLaws

  // ----- chunks that stand alone -------------------------------------------

  /** The bytes are one frame, whatever comes after them. */
  predicate Alone(raw: Bytes) {
    var lines := FullLines(raw);
    && |raw| <= MAX_FRAME_BYTES && Closed(raw) && |lines| >= 2 && Blank(lines[|lines| - 1])
    && forall i :: 0 < i < |lines| - 1 ==> !Blank(lines[i])
  }

  lemma ClosedParts(s: Bytes)
    requires Closed(s) && s != []
    ensures 0 < LineLength(s) <= |s| && Closed(s[LineLength(s)..])
    ensures FullLines(s) == [s[..LineLength(s)]] + FullLines(s[LineLength(s)..])
  {
    ClosedLine(s, []);
    assert s + [] == s;
  }

  lemma ClosedPrefix(s: Bytes, rest: Bytes)
    requires Closed(s) && s != []
    ensures s + rest != [] && LineLength(s + rest) == LineLength(s) <= |s|
    ensures (s + rest)[..LineLength(s)] == s[..LineLength(s)]
    ensures (s + rest)[LineLength(s)..] == s[LineLength(s)..] + rest
  {
    ClosedLine(s, rest);
  }

  lemma {:induction false} AloneFrom(buf: Bytes, s: Bytes, rest: Bytes)
    requires |buf + s| <= MAX_FRAME_BYTES && s != [] && Closed(s)
    requires
      var lines := FullLines(s);
      && lines != [] && Blank(lines[|lines| - 1]) && (buf == [] ==> |lines| >= 2)
      && forall i :: 0 <= i < |lines| - 1 && (i > 0 || buf != []) ==> !Blank(lines[i])
    ensures NextCut(buf, s + rest) == Some(Cut(buf + s, false, rest))
    decreases |s|
  {
    hide *;
    ClosedParts(s);
    ClosedPrefix(s, rest);
    CutUnfold(buf, s + rest);
    var n := LineLength(s);
    var line, tail := s[..n], s[n..];
    assert buf + line + tail == buf + s;
    if tail == [] {
      NoFullLines();
      assert line == s && FullLines(s) == [line] && tail + rest == rest;
    } else {
      ClosedParts(tail);
      assert FullLines(s)[0] == line;
      assert forall i :: 0 <= i < |FullLines(tail)| ==> FullLines(tail)[i] == FullLines(s)[i + 1];
      AloneFrom(buf + line, tail, rest);
    }
  }

  lemma AloneIsCut(raw: Bytes, rest: Bytes)
    requires Alone(raw)
    ensures NextCut([], raw + rest) == Some(Cut(raw, false, rest))
  {
    assert [] + raw == raw;
    AloneFrom([], raw, rest);
  }

  lemma {:induction false} CutIsClosed(buf: Bytes, s: Bytes)
    requires |buf| <= MAX_FRAME_BYTES && Closed(buf)
    ensures
      var c := NextCut(buf, s);
      c.Some? && !c.value.oversized && c.value.rest != [] ==> Closed(c.value.raw)
    decreases |s|
  {
    if s != [] {
      var n := LineLength(s);
      var line, rest := s[..n], s[n..];
      if |buf| + |line| <= MAX_FRAME_BYTES && rest != [] {
        OneFullLine(s);
        CutIsClosed(buf + line, rest);
      }
    }
  }

  lemma CutIsAlone(raw: Bytes, rest: Bytes)
    requires rest != [] && NextCut([], raw + rest) == Some(Cut(raw, false, rest))
    ensures Alone(raw)
  {
    hide NextCut, FullLines, Blank, Closed;
    EmptyIsClosed();
    CutEndsWhereItShould([], raw + rest);
    CutIsClosed([], raw + rest);
    CutIsFair([], raw + rest);
  }

  lemma EmptyIsClosed()
    ensures Closed([]) && FullLines([]) == []
  {
  }

  // ----- reading chunk by chunk --------------------------------------------

  /** A client that reads what is written finds the chunks, one frame each. */
  ghost predicate ReadAsWritten(chunks: seq<Bytes>)
    decreases |chunks|
  {
    chunks == []
    || (NextCut([], Flat(chunks)) == Some(Cut(chunks[0], false, Flat(chunks[1..]))) && ReadAsWritten(chunks[1..]))
  }

  lemma {:induction false} FlatNotEmpty(chunks: seq<Bytes>)
    requires chunks != [] && chunks[|chunks| - 1] != []
    ensures Flat(chunks) != []
  {
    FlatFirst(chunks);
    if |chunks| > 1 {
      FlatNotEmpty(chunks[1..]);
    }
  }

  lemma {:induction false} ReadAsWrittenExactly(chunks: seq<Bytes>)
    requires chunks != [] && Alone(chunks[|chunks| - 1])
    ensures ReadAsWritten(chunks) <==> forall c :: c in chunks ==> Alone(c)
    decreases |chunks|
  {
    hide Alone, NextCut, Flat;
    var rest := chunks[1..];
    FlatFirst(chunks);
    assert chunks == [chunks[0]] + rest;
    if rest == [] {
      AloneIsCut(chunks[0], Flat(rest));
    } else {
      ReadAsWrittenExactly(rest);
      AloneNotEmpty(rest[|rest| - 1]);
      FlatNotEmpty(rest);
      if Alone(chunks[0]) {
        AloneIsCut(chunks[0], Flat(rest));
      } else if ReadAsWritten(chunks) {
        CutIsAlone(chunks[0], Flat(rest));
        assert false;
      }
    }
  }

  lemma AloneNotEmpty(raw: Bytes)
    requires Alone(raw)
    ensures raw != []
  {
  }

  /** The frames that a client reads of some bytes. */
  function FramesRead(s: Bytes): seq<Frame> {
    FramesOf(Cuts(s))
  }

  function FramesOf(cuts: seq<Cut>): seq<Frame> {
    if cuts == [] then [] else [FrameOf(cuts[0])] + FramesOf(cuts[1..])
  }

  /** The frame that some bytes are when they are read alone. */
  function AsFrame(raw: Bytes): Frame {
    FrameOf(Cut(raw, false, []))
  }

  function EachAsFrame(chunks: seq<Bytes>): (r: seq<Frame>)
    ensures |r| == |chunks| && forall i :: 0 <= i < |r| ==> r[i] == AsFrame(chunks[i])
  {
    if chunks == [] then [] else [AsFrame(chunks[0])] + EachAsFrame(chunks[1..])
  }

  lemma FirstRead(s: Bytes)
    ensures NextCut([], s).None? ==> FramesRead(s) == []
    ensures NextCut([], s).Some? ==>
      FramesRead(s) == [FrameOf(NextCut([], s).value)] + FramesRead(NextCut([], s).value.rest)
  {
    hide NextCut, FrameOf;
    CutIsFair([], s);
    if NextCut([], s).Some? {
      var c := NextCut([], s).value;
      assert Cuts(s) == [c] + Cuts(c.rest);
      assert ([c] + Cuts(c.rest))[1..] == Cuts(c.rest);
    }
  }

  lemma SameFrame(raw: Bytes, rest: Bytes)
    ensures FrameOf(Cut(raw, false, rest)) == AsFrame(raw)
  {
    hide HandedOn, LastEvent, Joined;
  }

  /** Chunks that stand alone are read one by one, and then what comes after them. */
  lemma {:induction false} AloneAreRead(chunks: seq<Bytes>, rest: Bytes)
    requires forall c :: c in chunks ==> Alone(c)
    ensures FramesRead(Flat(chunks) + rest) == EachAsFrame(chunks) + FramesRead(rest)
    decreases |chunks|
  {
    hide Alone, NextCut, Flat, FramesRead, AsFrame, FrameOf;
    if chunks == [] {
      FlatOfNone();
      assert [] + rest == rest && [] + FramesRead(rest) == FramesRead(rest);
    } else {
      var tail := Flat(chunks[1..]) + rest;
      FlatFirst(chunks);
      assert chunks[0] + Flat(chunks[1..]) + rest == chunks[0] + tail;
      AloneIsCut(chunks[0], tail);
      FirstRead(chunks[0] + tail);
      SameFrame(chunks[0], tail);
      AloneAreRead(chunks[1..], rest);
      assert EachAsFrame(chunks) == [AsFrame(chunks[0])] + EachAsFrame(chunks[1..]);
    }
  }

  lemma NothingRead()
    ensures FramesRead([]) == []
  {
    FirstRead([]);
  }

  // ----- frames relayed as they came ---------------------------------------

  /** The frame has all its bytes, its blank line among them, and none of them is
      overwritten. */
  predicate Whole(c: Cut) {
    !c.oversized && !Spoiled(c.raw) && EndsInBlankLine(c.raw)
  }

  predicate EndsInBlankLine(raw: Bytes) {
    var lines := FullLines(raw);
    Closed(raw) && |lines| >= 2 && Blank(lines[|lines| - 1])
  }

  /** Nothing stands alone that goes on after an empty line. */
  lemma NoDoubleLF(s: Bytes, p: nat)
    requires 1 <= p && p + 2 < |s| && s[p] == LF && s[p + 1] == LF
    ensures !Alone(s)
  {
    hide *;
    var a, c := s[..p + 1], s[p + 2..];
    var b := [LF] + c;
    assert s == a + b;
    EndsInLF(a);
    FullLinesAppend(a, b);
    LFAndMore(c);
    FullLinesCons(a);
    FullLinesCons(c);
    LFIsBlank();
    assert FullLines(s)[|FullLines(a)|] == [LF];
    BlankInside(s, |FullLines(a)|);
  }

  lemma LFAndMore(c: Bytes)
    ensures FullLines([LF] + c) == [[LF]] + FullLines(c)
  {
    hide *;
    assert [] + [LF] + c == [LF] + c;
    FirstLine([], c);
    FullLinesCons([LF] + c);
  }

  lemma EndsInLF(s: Bytes)
    requires s != [] && s[|s| - 1] == LF
    ensures Closed(s)
  {
  }

  lemma BlankInside(s: Bytes, n: nat)
    requires 0 < n < |FullLines(s)| - 1 && Blank(FullLines(s)[n])
    ensures !Alone(s)
  {
  }

  /** Handed on, a frame of the upstream stands alone exactly when it is whole. */
  lemma AloneExactly(input: Bytes, c: Cut)
    requires NextCut([], input) == Some(c)
    ensures Alone(HandedOn(c.raw)) <==> Whole(c)
  {
    hide *;
    CutFacts(input, c);
    WholeIs(c);
    if Spoiled(c.raw) {
      SpoiledIsNotAlone(c.raw);
    } else {
      NotSpoiledIs(c.raw);
      if c.oversized && Alone(c.raw) {
        AloneIsCut(c.raw, input[|c.raw|..]);
        assert false;
      }
    }
  }

  lemma WholeIs(c: Cut)
    ensures Whole(c) <==> !c.oversized && !Spoiled(c.raw) && EndsInBlankLine(c.raw)
  {
  }

  lemma NotSpoiledIs(raw: Bytes)
    requires !Spoiled(raw)
    ensures HandedOn(raw) == raw
  {
  }

  /** What is known of a frame of the upstream. */
  lemma CutFacts(input: Bytes, c: Cut)
    requires NextCut([], input) == Some(c)
    ensures |c.raw| <= MAX_FRAME_BYTES && |c.rest| < |input|
    ensures c.raw <= input && c.raw + input[|c.raw|..] == input
    ensures !c.oversized ==> (Alone(c.raw) <==> EndsInBlankLine(c.raw))
    ensures !c.oversized && c.rest != [] ==> EndsInBlankLine(c.raw)
    ensures !c.oversized ==> forall i :: 0 < i < |FullLines(c.raw)| - 1 ==> !Blank(FullLines(c.raw)[i])
  {
    hide *;
    assert [] + input == input;
    FairFacts(input, c);
    EmptyIsClosed();
    CutEndsWhereItShould([], input);
    CutIsClosed([], input);
    if !c.oversized {
      EndFacts(c);
      AloneOrNot(c.raw);
    }
  }

  lemma FairFacts(input: Bytes, c: Cut)
    requires NextCut([], input) == Some(c)
    ensures |c.raw| <= MAX_FRAME_BYTES && |c.rest| < |input|
    ensures c.raw <= input && c.raw + input[|c.raw|..] == input
  {
    hide NextCut;
    CutIsFair([], input);
    assert [] + input == input;
  }

  lemma EndFacts(c: Cut)
    requires EndsWhereItShould(c) && (c.rest != [] ==> Closed(c.raw))
    ensures c.rest != [] ==> EndsInBlankLine(c.raw)
    ensures forall i :: 0 < i < |FullLines(c.raw)| - 1 ==> !Blank(FullLines(c.raw)[i])
  {
    hide Closed, FullLines, Blank;
  }

  lemma AloneOrNot(raw: Bytes)
    requires |raw| <= MAX_FRAME_BYTES
    requires forall i :: 0 < i < |FullLines(raw)| - 1 ==> !Blank(FullLines(raw)[i])
    ensures Alone(raw) <==> EndsInBlankLine(raw)
  {
    hide Closed, FullLines, Blank;
  }

  lemma SpoiledIsNotAlone(raw: Bytes)
    requires Spoiled(raw)
    ensures !Alone(HandedOn(raw))
  {
    hide Alone, IsData, SomeData, Lines;
    HandedOnIs(raw);
    OverwrittenNeedsRoom(raw);
    BeforeLF(raw, 0);
    var p := Overwritten(Lines(raw), 0).value;
    NoDoubleLF(HandedOn(raw), p);
  }

  /** The CR that is overwritten comes after the data prefix and before an LF. */
  lemma {:induction false} BeforeLF(s: Bytes, start: nat)
    requires Overwritten(Lines(s), start).Some?
    ensures
      var p := Overwritten(Lines(s), start).value;
      start + 5 <= p < start + |s| - 1 && s[p - start + 1] == LF
    decreases |s|
  {
    hide IsData, Lines, SomeData, FirstLF;
    assert s[0..] == s;
    NextLine(s, Lines(s), 0);
    var line := Lines(s)[0];
    if |line| == |s| {
      NoLines();
    } else {
      LineBefore(s);
      if IsData(line) {
        DataIsLong(line);
        DataAndCR(line);
      } else {
        BeforeLF(s[|line| + 1..], start + |line| + 1);
      }
    }
  }

  lemma LineBefore(s: Bytes)
    requires |Lines(s)[0]| < |s|
    ensures s[|Lines(s)[0]|] == LF
  {
  }

  lemma DataAndCR(line: Bytes)
    requires IsData(line) && EndsInCR(line)
    ensures |line| >= 6
  {
  }

  // ----- an encoded payload ------------------------------------------------

  lemma EncodedIsAlone(payload: Bytes)
    requires Plain(payload)
    ensures Alone(Encode(payload))
  {
    hide *;
    PlainIs(payload);
    EncodedCut(payload, [LF]);
    CutIsAlone(Encode(payload), [LF]);
  }

  lemma PlainIs(payload: Bytes)
    requires Plain(payload)
    ensures LF !in payload && |payload| + 8 <= MAX_FRAME_BYTES && TrimCR(payload) == payload
  {
  }

  /** Read alone it is the payload, and the end marker only if it says so. */
  lemma EncodedFrame(payload: Bytes)
    requires Plain(payload)
    ensures AsFrame(Encode(payload)).data == Some(payload)
    ensures IsDone(AsFrame(Encode(payload))) <==> TrimSpace(payload) == DONE
  {
    hide HandedOn, LastEvent, Joined, Lines, Encode, TrimSpace, Plain;
    PlainIs(payload);
    EncodedData(payload);
  }

  lemma DoneIsPlain()
    ensures Plain(DONE) && DONE_EVENT == Encode(DONE) && TrimSpace(DONE) == DONE
  {
  }
}
