/** What a client reads of a frame that was handed on with an overwritten byte, and of
    anything else that is sent whole. */
module Halves {
  import opened Basics
  import opened Frames
  import opened FrameLaws
  import opened Pump
  import opened PumpLaws
  import opened ClientView
  import opened Gluing
  import opened EndMarker

  // ----- a frame with an overwritten byte ----------------------------------

  /** The data line whose CR is overwritten, with what comes before and after it. */
  lemma {:induction false} SpoiledShape(s: Bytes, start: nat) returns (before: Bytes, line: Bytes, after: Bytes)
    requires Overwritten(Lines(s), start).Some?
    ensures s == before + (line + [CR, LF]) + after && Overwritten(Lines(s), start).value == start + |before + line|
    ensures Closed(before) && LF !in line && DATA <= line && SomeData(Lines(after))
    decreases |s|
  {
    hide *;
    FirstOf(s);
    FirstOfLines(Lines(s), start, None, []);
    NoLines();
    var first := Lines(s)[0];
    FirstHasNoLF(s);
    if |first| == |s| {
      assert false;
    } else {
      var rest := s[|first| + 1..];
      assert s == first + [LF] + rest;
      if IsData(first) {
        before, line, after := [], TrimCR(first), rest;
        DataThenCR(first);
      } else {
        before, line, after := SpoiledShape(rest, start + |first| + 1);
        StaysClosed(first, before);
        Regrouped(first + [LF], before, line + [CR, LF], after);
        before := first + [LF] + before;
      }
    }
  }

  lemma Regrouped(a: Bytes, b: Bytes, c: Bytes, d: Bytes)
    ensures a + (b + c + d) == a + b + c + d
  {
  }

  lemma FirstHasNoLF(s: Bytes)
    ensures Lines(s) != [] && LF !in Lines(s)[0]
    ensures |Lines(s)[0]| < |s| ==> s[|Lines(s)[0]|] == LF
  {
  }

  lemma DataThenCR(line: Bytes)
    requires IsData(line) && EndsInCR(line) && LF !in line
    ensures line == TrimCR(line) + [CR] && DATA <= TrimCR(line) && LF !in TrimCR(line)
    ensures Closed([])
  {
  }

  lemma StaysClosed(first: Bytes, before: Bytes)
    requires Closed(before)
    ensures Closed(first + [LF] + before)
  {
  }

  /** What a client makes of such a frame: it ends at the overwritten byte, and another
      one begins. */
  function HalvesOf(raw: Bytes): (Bytes, Bytes)
    requires Spoiled(raw)
  {
    OverwrittenNeedsRoom(raw);
    var n := Overwritten(Lines(raw), 0).value + 2;
    (HandedOn(raw)[..n], HandedOn(raw)[n..])
  }

  lemma HalvesAre(raw: Bytes) returns (before: Bytes, line: Bytes, after: Bytes)
    requires Spoiled(raw)
    ensures raw == before + (line + [CR, LF]) + after
    ensures Closed(before) && LF !in line && DATA <= line && SomeData(Lines(after))
    ensures HalvesOf(raw) == (before + (line + [LF]) + [LF], after)
    ensures HalvesOf(raw).0 + HalvesOf(raw).1 == HandedOn(raw)
  {
    hide Lines, IsData, SomeData, Overwritten, HandedOn, Closed;
    HandedOnIs(raw);
    before, line, after := SpoiledShape(raw, 0);
    assert raw[|before + line| := LF] == before + (line + [LF]) + [LF] + after;
  }

  lemma LinesOfLine(line: Bytes)
    requires LF !in line
    ensures FullLines(line + [LF]) == [line + [LF]] && Closed(line + [LF])
  {
    hide *;
    FirstLine(line, []);
    assert line + [LF] + [] == line + [LF];
    FullLinesCons(line + [LF]);
    NoFullLines();
    EndsInLF(line + [LF]);
    assert (line + [LF])[..|line| + 1] == line + [LF];
  }

  /** The lines of the frame and of its first half. */
  lemma HalfLines(before: Bytes, line: Bytes, after: Bytes)
    requires Closed(before) && LF !in line
    ensures FullLines(before + (line + [CR, LF]) + after)
         == FullLines(before) + [line + [CR, LF]] + FullLines(after)
    ensures FullLines(before + (line + [LF]) + [LF]) == FullLines(before) + [line + [LF]] + [[LF]]
  {
    hide *;
    var cr, lf := line + [CR], [LF];
    NotLF();
    LinesOfLine(cr);
    LinesOfLine(line);
    assert cr + [LF] == line + [CR, LF];
    FullLinesAppend(before, line + [CR, LF]);
    EndsInLF(before + (line + [CR, LF]));
    FullLinesAppend(before + (line + [CR, LF]), after);
    FullLinesAppend(before, line + [LF]);
    EndsInLF(before + (line + [LF]));
    FullLinesAppend(before + (line + [LF]), lf);
    LFAndMore([]);
    NoFullLines();
    assert lf + [] == lf;
  }

  lemma NotLF()
    ensures CR != LF
  {
  }

  /** Data lines have a d in them. */
  lemma {:induction false} DataInside(s: Bytes)
    requires SomeData(Lines(s))
    ensures 'd' in s
    decreases |s|
  {
    hide *;
    FirstOf(s);
    FirstOfLines(Lines(s), 0, None, []);
    NoLines();
    var first := Lines(s)[0];
    if IsData(first) {
      BeginsWithD(first);
      assert s[0] == first[0];
    } else {
      DataInside(s[|first| + 1..]);
    }
  }

  lemma BeginsWithD(line: Bytes)
    requires IsData(line)
    ensures line != [] && line[0] == 'd'
  {
  }

  lemma OnlyLine(s: Bytes)
    requires |FullLines(s)| == 1
    ensures FullLines(s)[0] == s
  {
    hide *;
    SomeLines(s);
    FullLinesCons(s);
    var n := LineLength(s);
    SomeLines(s[n..]);
    assert s == s[..n] + s[n..];
  }

  lemma SomeLines(s: Bytes)
    ensures s == [] <==> FullLines(s) == []
  {
  }

  lemma BlankHasNoD(line: Bytes)
    requires Blank(line)
    ensures 'd' !in line
  {
  }

  /** What follows the overwritten byte is a frame by itself. */
  lemma AfterIsAlone(raw: Bytes, before: Bytes, line: Bytes, after: Bytes)
    requires raw == before + (line + [CR, LF]) + after && |raw| <= MAX_FRAME_BYTES
    requires Closed(before) && LF !in line && SomeData(Lines(after)) && EndsInBlankLine(raw)
    requires forall i :: 0 < i < |FullLines(raw)| - 1 ==> !Blank(FullLines(raw)[i])
    ensures Alone(after)
  {
    hide *;
    HalfLines(before, line, after);
    DataInside(after);
    EndsIs(raw);
    SuffixClosed(before + (line + [CR, LF]), after);
    FullLinesCons(after);
    var lines, mine := FullLines(raw), FullLines(after);
    assert lines[|lines| - 1] == mine[|mine| - 1];
    if |mine| == 1 {
      OnlyLine(after);
      BlankHasNoD(after);
      assert false;
    }
    forall i | 0 < i < |mine| - 1
      ensures !Blank(mine[i])
    {
      assert mine[i] == lines[|lines| - |mine| + i];
    }
    AloneBy(after);
  }

  lemma EndsIs(raw: Bytes)
    ensures EndsInBlankLine(raw)
       <==> Closed(raw) && |FullLines(raw)| >= 2 && Blank(FullLines(raw)[|FullLines(raw)| - 1])
  {
    hide Closed, FullLines, Blank;
  }

  lemma AloneBy(raw: Bytes)
    requires |raw| <= MAX_FRAME_BYTES && Closed(raw) && |FullLines(raw)| >= 2
    requires Blank(FullLines(raw)[|FullLines(raw)| - 1])
    requires forall i :: 0 < i < |FullLines(raw)| - 1 ==> !Blank(FullLines(raw)[i])
    ensures Alone(raw)
  {
    hide Closed, FullLines, Blank;
  }

  lemma SuffixClosed(a: Bytes, b: Bytes)
    requires Closed(a + b)
    ensures Closed(b)
  {
    if b != [] {
      assert (a + b)[|a + b| - 1] == b[|b| - 1];
    }
  }

  lemma BeforeIsAlone(raw: Bytes, before: Bytes, line: Bytes, after: Bytes)
    requires raw == before + (line + [CR, LF]) + after && |raw| <= MAX_FRAME_BYTES && after != []
    requires Closed(before) && LF !in line && DATA <= line
    requires forall i :: 0 < i < |FullLines(raw)| - 1 ==> !Blank(FullLines(raw)[i])
    ensures Alone(before + (line + [LF]) + [LF])
  {
    hide *;
    HalfLines(before, line, after);
    FullLinesCons(after);
    var half := before + (line + [LF]) + [LF];
    var n := |FullLines(before)|;
    LFIsBlank();
    EndsInLF(half);
    DataBegins(line);
    NotBlank(line + [LF], 0);
    forall i | 0 < i < |FullLines(half)| - 1
      ensures !Blank(FullLines(half)[i])
    {
      if i < n {
        assert FullLines(half)[i] == FullLines(raw)[i];
      } else {
        assert FullLines(half)[i] == line + [LF];
      }
    }
    AloneBy(half);
  }

  lemma DataBegins(line: Bytes)
    requires DATA <= line
    ensures line != [] && line[0] == 'd'
  {
  }

  // ----- the frames that a client reads of what was sent -------------------

  function Pieces(x: Sent): seq<Bytes> {
    if x.AsItCame? && Spoiled(x.cut.raw) then [HalvesOf(x.cut.raw).0, HalvesOf(x.cut.raw).1] else [Chunk(x)]
  }

  function AllPieces(xs: seq<Sent>): seq<Bytes> {
    if xs == [] then [] else Pieces(xs[0]) + AllPieces(xs[1..])
  }

  predicate Unbroken(x: Sent) {
    x.AsItCame? ==> !x.cut.oversized && EndsInBlankLine(x.cut.raw)
  }

  /** Nothing in it reads as the end marker. */
  predicate ShowsNoMarker(x: Sent) {
    NoMarker(EachAsFrame(Pieces(x)))
  }

  lemma HalvesAlone(c: Cut)
    requires Relays(c) && Unbroken(AsItCame(c)) && Spoiled(c.raw)
    ensures Alone(HalvesOf(c.raw).0) && Alone(HalvesOf(c.raw).1)
    ensures HalvesOf(c.raw).0 + HalvesOf(c.raw).1 == HandedOn(c.raw)
  {
    hide *;
    var input := CameFrom(c);
    CutFacts(input, c);
    UnbrokenIs(c);
    var before, line, after := HalvesAre(c.raw);
    DataInside(after);
    BeforeIsAlone(c.raw, before, line, after);
    AfterIsAlone(c.raw, before, line, after);
  }

  lemma UnbrokenIs(c: Cut)
    ensures Unbroken(AsItCame(c)) <==> !c.oversized && EndsInBlankLine(c.raw)
    ensures Unbroken(AsItCame(c)) && !Spoiled(c.raw) <==> Complete(AsItCame(c))
  {
    hide EndsInBlankLine, Spoiled;
  }

  lemma PiecesAlone(x: Sent)
    requires Proper(x) && FromUpstream(x) && Unbroken(x)
    ensures (forall p :: p in Pieces(x) ==> Alone(p)) && Flat(Pieces(x)) == Chunk(x)
  {
    hide Alone, Proper, Relays, Unbroken, Complete, HandedOn, HalvesOf, Flat, Encode, Spoiled;
    FlatOne(Chunk(x));
    if x.AsItCame? && Spoiled(x.cut.raw) {
      HalvesAlone(x.cut);
      FlatTwo(HalvesOf(x.cut.raw).0, HalvesOf(x.cut.raw).1);
    } else {
      if x.AsItCame? {
        UnbrokenIs(x.cut);
      } else {
        OwnIsComplete(x);
      }
      AloneIfComplete(x);
    }
  }

  lemma OwnIsComplete(x: Sent)
    requires x.Own?
    ensures Complete(x)
  {
  }

  lemma FlatTwo(a: Bytes, b: Bytes)
    ensures Flat([a, b]) == a + b
  {
    hide Flat;
    FlatFirst([a, b]);
    assert [a, b][1..] == [b];
    FlatOne(b);
  }

  /** What is sent unbroken is read piece by piece, and then what comes after it. */
  lemma {:induction false} PiecesAreRead(xs: seq<Sent>, tail: Bytes)
    requires forall x :: x in xs ==> Proper(x) && FromUpstream(x) && Unbroken(x)
    ensures FramesRead(Flat(Chunks(xs)) + tail) == EachAsFrame(AllPieces(xs)) + FramesRead(tail)
  {
    hide *;
    PiecesAllAlone(xs);
    AloneAreRead(AllPieces(xs), tail);
  }

  lemma {:induction false} PiecesAllAlone(xs: seq<Sent>)
    requires forall x :: x in xs ==> Proper(x) && FromUpstream(x) && Unbroken(x)
    ensures (forall p :: p in AllPieces(xs) ==> Alone(p)) && Flat(AllPieces(xs)) == Flat(Chunks(xs))
  {
    hide *;
    PiecesUnfold(xs);
    if xs == [] {
      NoChunks();
    } else {
      PiecesAlone(xs[0]);
      PiecesAllAlone(xs[1..]);
      FlatAppend(Pieces(xs[0]), AllPieces(xs[1..]));
      FlatFirst(Chunks(xs));
    }
  }

  lemma PiecesUnfold(xs: seq<Sent>)
    ensures xs == [] ==> AllPieces(xs) == []
    ensures xs != [] ==>
      && AllPieces(xs) == Pieces(xs[0]) + AllPieces(xs[1..])
      && Chunks(xs) != [] && Chunks(xs)[0] == Chunk(xs[0]) && Chunks(xs)[1..] == Chunks(xs[1..])
  {
    hide Chunk, Pieces;
  }

  lemma {:induction false} ShownExactly(xs: seq<Sent>)
    ensures NoMarker(EachAsFrame(AllPieces(xs))) <==> forall x :: x in xs ==> ShowsNoMarker(x)
  {
    hide Pieces, IsDone, AsFrame, AllPieces, NoMarker;
    NoFrames();
    PiecesUnfold(xs);
    if xs != [] {
      ShownExactly(xs[1..]);
      var first, rest := Pieces(xs[0]), AllPieces(xs[1..]);
      EachAppend(first, rest);
      ShownFirst(xs);
      AppendNone(EachAsFrame(first), EachAsFrame(rest));
    }
  }

  lemma ShownFirst(xs: seq<Sent>)
    requires xs != []
    ensures (forall x :: x in xs ==> ShowsNoMarker(x))
       <==> NoMarker(EachAsFrame(Pieces(xs[0]))) && forall x :: x in xs[1..] ==> ShowsNoMarker(x)
  {
    hide NoMarker, Pieces, EachAsFrame;
    assert xs == [xs[0]] + xs[1..];
    if forall x :: x in xs ==> ShowsNoMarker(x) {
      assert ShowsNoMarker(xs[0]);
      forall x | x in xs[1..]
        ensures ShowsNoMarker(x)
      {
        assert x in xs;
      }
    }
  }

  lemma EachAppend(a: seq<Bytes>, b: seq<Bytes>)
    ensures EachAsFrame(a + b) == EachAsFrame(a) + EachAsFrame(b)
  {
    hide AsFrame;
  }

  lemma NoFrames()
    ensures NoMarker([]) && EachAsFrame([]) == []
  {
  }

  lemma OneMoreNone(f: Frame, frames: seq<Frame>)
    requires !IsDone(f) && NoMarker(frames)
    ensures NoMarker([f] + frames)
  {
    hide IsDone;
  }

  lemma AppendNone(a: seq<Frame>, b: seq<Frame>)
    ensures NoMarker(a + b) <==> NoMarker(a) && NoMarker(b)
  {
    hide IsDone;
  }

  /** Only a frame with an overwritten byte can show the client an end marker. */
  lemma OnlySpoiledShow(x: Sent)
    requires Proper(x) && FromUpstream(x) && !(x.AsItCame? && Spoiled(x.cut.raw))
    ensures ShowsNoMarker(x)
  {
    hide Plain, Encode, HandedOn, AsFrame, FrameOf, IsDone, TrimSpace, Relays, Spoiled;
    assert Pieces(x) == [Chunk(x)];
    assert EachAsFrame([Chunk(x)]) == [AsFrame(Chunk(x))];
    if x.Own? {
      OwnIsComplete(x);
      NotDoneAlone(x);
    } else {
      var _ := CameFrom(x.cut);
      NotSpoiledIs(x.cut.raw);
      SameFields(x.cut);
    }
  }
}
