/** What a client reads of a frame that is broken off, and of the events after it. */
module BrokenFrames {
  import opened Basics
  import opened Frames
  import opened FrameLaws
  import opened Pump
  import opened PumpLaws
  import opened ClientView
  import opened Gluing
  import opened EndMarker
  import opened Halves

  // ----- a frame that is broken off ----------------------------------------

  lemma LastIsAll(input: Bytes, c: Cut)
    requires NextCut([], input) == Some(c) && !c.oversized && c.rest == []
    ensures c.raw == input
  {
    hide NextCut;
    CutIsFair([], input);
    assert [] + input == input && c.raw + c.rest == c.raw;
  }

  /** What an event is cut into after a frame that is broken off. */
  lemma CutOfGlued(c: Cut, payload: Bytes, more: Bytes)
    requires Relays(c) && !Unbroken(AsItCame(c)) && LF !in payload
    ensures
      var next := NextCut([], c.raw + (Encode(payload) + more));
      next.Some? && Glued(c.raw, next.value, payload, more)
  {
    hide *;
    var tail := Encode(payload) + more;
    var input := CameFrom(c);
    CutFacts(input, c);
    UnbrokenIs(c);
    assert [] + c.raw == c.raw;
    if c.oversized {
      OversizedGlue([], input, c.raw, c.rest, payload, more);
      GluedIs(c.raw, payload, more);
      assert c.raw[0..] == c.raw;
    } else {
      LastIsAll(input, c);
      GlueAfter([], c.raw, payload, more);
      var next := NextCut([], c.raw + tail);
      if next.value == Cut(c.raw, false, tail) {
        LineIsData(payload);
        CutIsAlone(c.raw, tail);
        assert false;
      }
    }
  }

  lemma GluedIs(raw: Bytes, payload: Bytes, more: Bytes)
    ensures Glued(raw, Cut(raw, true, [LF] + more), payload, more)
  {
  }

  /** The client reads the frame and part of the event as one frame, which is not the
      end marker. */
  lemma GluedIsRead(c: Cut, payload: Bytes, more: Bytes) returns (f: Frame, rest: Bytes)
    requires Relays(c) && !Unbroken(AsItCame(c)) && LF !in payload
    ensures FramesRead(c.raw + (Encode(payload) + more)) == [f] + FramesRead(rest) && !IsDone(f)
    ensures rest == more || rest == [LF] + more
  {
    hide *;
    var tail := Encode(payload) + more;
    var _ := CameFrom(c);
    CutOfGlued(c, payload, more);
    var next := NextCut([], c.raw + tail).value;
    var p := GluedParts(c.raw, next, payload, more);
    TakingPart(None, c.raw, payload, p);
    FrameFields(next);
    SaysIs(Joined(None, Lines(next.raw)));
    FirstRead(c.raw + tail);
    f, rest := FrameOf(next), next.rest;
  }

  lemma GluedParts(raw: Bytes, c: Cut, payload: Bytes, more: Bytes) returns (p: Bytes)
    requires Glued(raw, c, payload, more)
    ensures p <= Encode(payload) && c.raw == raw + p && (c.rest == more || c.rest == [LF] + more)
  {
    p := c.raw[|raw|..];
  }

  // ----- what comes after it -----------------------------------------------

  lemma EmptyLineIsNotDone()
    ensures NoMarker(FramesRead([LF]))
    ensures FramesRead([]) == []
  {
    hide *;
    NothingRead();
    CutOfLF();
    FirstRead([LF]);
    var c := NextCut([], [LF]).value;
    FrameFields(c);
    LinesOfLF();
    NoData([LF], None);
    BlankValue();
    NoFrames();
    OneMoreNone(FrameOf(c), []);
  }

  lemma CutOfLF()
    ensures NextCut([], [LF]) == Some(Cut([LF], false, []))
  {
    hide LineLength, Blank;
    LFFirst([]);
    assert [LF] + [] == [LF];
    CutUnfold([], [LF]);
    assert [] + [LF] == [LF];
  }

  lemma BlankValue()
    ensures TrimSpace(ValueOf(None)) != DONE
  {
    BlankIsNothing();
  }

  /** A blank line before an event does not matter to what the event says. */
  lemma EventAfterLF(payload: Bytes, more: Bytes) returns (f: Frame)
    requires Plain(payload)
    ensures FramesRead([LF] + (Encode(payload) + more)) == [f] + FramesRead(more)
    ensures IsDone(f) <==> TrimSpace(payload) == DONE
  {
    hide *;
    var s := [LF] + (Encode(payload) + more);
    PlainIs(payload);
    var got := [LF] + (LineOf(payload) + [LF]);
    LFThenLine(payload, more);
    LineIsData(payload);
    GlueBlank(got, more);
    FirstRead(s);
    var c := NextCut([], s).value;
    f := FrameOf(c);
    FrameFields(c);
    var rest: Bytes := if |got| == MAX_FRAME_BYTES then [] else [LF];
    assert c.raw == [LF] + (LineOf(payload) + [LF] + rest);
    LinesAfterLF(payload, rest);
    ValueIs(payload);
  }

  lemma ValueIs(value: Bytes)
    ensures ValueOf(Some(value)) == value
  {
  }

  /** The reader takes the blank line and the first line of the event together. */
  lemma LFThenLine(payload: Bytes, more: Bytes)
    requires LF !in payload && |payload| + 8 <= MAX_FRAME_BYTES
    ensures NextCut([], [LF] + (Encode(payload) + more)) == NextCut([LF] + (LineOf(payload) + [LF]), [LF] + more)
    ensures |[LF] + (LineOf(payload) + [LF])| <= MAX_FRAME_BYTES
  {
    hide *;
    var event := Encode(payload) + more;
    LineIsData(payload);
    LFFirst(event);
    CutUnfold([], [LF] + event);
    assert [] + [LF] == [LF];
    GluedLine([], payload, more);
    assert [] + event == event && [] + LineOf(payload) + [LF] == LineOf(payload) + [LF];
    CutUnfold([LF], event);
  }

  lemma LinesAfterLF(payload: Bytes, rest: Bytes)
    requires LF !in payload && rest <= [LF] && TrimCR(payload) == payload
    ensures Joined(None, Lines([LF] + (LineOf(payload) + [LF] + rest))) == Some(payload)
  {
    hide *;
    var event := LineOf(payload) + [LF] + rest;
    LineIsData(payload);
    assert [] + [LF] + event == [LF] + event;
    FirstLineOf([], event);
    NotData();
    FirstOfLines([[]] + Lines(event), 0, None, []);
    assert ([[]] + Lines(event))[1..] == Lines(event);
    FirstLineOf(LineOf(payload), rest);
    EncodedValue(payload);
    JoinedFirst(LineOf(payload), Lines(rest));
    NoData(rest, Some(payload));
  }

  lemma NotData()
    ensures !IsData([])
  {
  }

  predicate Trailing(payload: Bytes) {
    Plain(payload) && TrimSpace(payload) != DONE
  }

  /** Events and then the end marker, and the same after a blank line. */
  lemma EventsAreRead(payloads: seq<Bytes>)
    requires forall p :: p in payloads ==> Trailing(p)
    ensures OnlyLastIsDone(FramesRead(Flat(EncodeEach(payloads) + [DONE_EVENT])))
    ensures OnlyLastIsDone(FramesRead([LF] + Flat(EncodeEach(payloads) + [DONE_EVENT])))
  {
    hide *;
    OwnEvents(payloads);
    DoneIsPlain();
    if payloads == [] {
      NoEvents();
      FlatOne(DONE_EVENT);
      assert Encode(DONE) + [] == DONE_EVENT;
      var f := EventAfterLF(DONE, []);
      NothingRead();
      assert [] + [DONE_EVENT] == [DONE_EVENT];
      JustOne(f);
    } else {
      var p, rest := payloads[0], payloads[1..];
      OwnEvents(rest);
      EventsUnfold(payloads);
      TrailingIs(p);
      var f := EventAfterLF(p, Flat(EncodeEach(rest) + [DONE_EVENT]));
      OneMore(f, FramesRead(Flat(EncodeEach(rest) + [DONE_EVENT])));
    }
  }

  lemma TrailingIs(p: Bytes)
    ensures Trailing(p) <==> Plain(p) && TrimSpace(p) != DONE
  {
  }

  lemma NoEvents()
    ensures EncodeEach([]) == []
  {
  }

  lemma EventsUnfold(payloads: seq<Bytes>)
    requires payloads != []
    ensures Flat(EncodeEach(payloads) + [DONE_EVENT])
         == Encode(payloads[0]) + Flat(EncodeEach(payloads[1..]) + [DONE_EVENT])
  {
    hide Encode, Flat;
    var all := EncodeEach(payloads) + [DONE_EVENT];
    FlatFirst(all);
    assert all[1..] == EncodeEach(payloads[1..]) + [DONE_EVENT];
  }

  lemma OwnEvents(payloads: seq<Bytes>)
    requires forall p :: p in payloads ==> Trailing(p)
    ensures OnlyLastIsDone(FramesRead(Flat(EncodeEach(payloads) + [DONE_EVENT])))
  {
    hide *;
    ChunksOfOwn(payloads);
    OwnAreProper(payloads);
    ReadToTheEnd(OwnEach(payloads));
  }

  lemma OwnAreProper(payloads: seq<Bytes>)
    requires forall p :: p in payloads ==> Trailing(p)
    ensures forall x :: x in OwnEach(payloads) ==> Proper(x) && FromUpstream(x) && Complete(x)
  {
    hide Plain, TrimSpace;
    forall x | x in OwnEach(payloads)
      ensures Proper(x) && FromUpstream(x) && Complete(x)
    {
      var i :| 0 <= i < |payloads| && x == Own(payloads[i]);
      assert payloads[i] in payloads;
    }
  }

  lemma JustOne(f: Frame)
    requires IsDone(f)
    ensures OnlyLastIsDone([f] + [])
  {
    hide IsDone;
    assert ([f] + [])[..0] == [];
  }

  lemma OneMore(f: Frame, frames: seq<Frame>)
    requires !IsDone(f) && OnlyLastIsDone(frames)
    ensures OnlyLastIsDone([f] + frames)
  {
    hide IsDone;
    OnlyLastAppend([f], frames);
  }

  lemma OnlyLastAppend(a: seq<Frame>, b: seq<Frame>)
    requires OnlyLastIsDone(b)
    ensures OnlyLastIsDone(a + b) <==> NoMarker(a)
  {
    hide IsDone, NoMarker;
    var all, front := a + b, b[..|b| - 1];
    assert all[|all| - 1] == b[|b| - 1] && all[..|all| - 1] == a + front;
    AppendNone(a, front);
  }
}
