/** When a client of a translated stream reads its end marker once and last, whatever
    frames were relayed as they came. */
module MarkerReached {
  import opened Basics
  import opened Frames
  import opened FrameLaws
  import opened Pump
  import opened PumpLaws
  import opened ClientView
  import opened Gluing
  import opened EndMarker
  import opened Halves
  import opened BrokenFrames

  // ----- exactly when ------------------------------------------------------

  /** No frame relayed as it came follows one that is broken off, and that one has no
      overwritten byte. */
  ghost predicate BrokenOnce(xs: seq<Sent>) {
    forall i :: 0 <= i < |xs| && !Unbroken(xs[i]) ==>
      !Spoiled(xs[i].cut.raw) && forall j :: i < j < |xs| ==> xs[j].Own?
  }

  /** The client reads exactly one end marker, and that last, exactly when no frame
      relayed as it came shows it one, and the last thing before the end marker is not
      broken off. */
  lemma MarkerIsReadExactly(xs: seq<Sent>)
    requires forall x :: x in xs ==> Proper(x) && FromUpstream(x)
    requires BrokenOnce(xs)
    ensures OnlyLastIsDone(FramesRead(Flat(Chunks(xs) + [DONE_EVENT])))
       <==> (forall x :: x in xs ==> ShowsNoMarker(x)) && (xs == [] || Unbroken(xs[|xs| - 1]))
  {
    hide *;
    if forall x :: x in xs ==> Unbroken(x) {
      AllUnbroken(xs);
    } else {
      var ys, c, payloads := SplitAtBroken(xs);
      OneBroken(ys, c, payloads);
    }
  }

  lemma AllUnbroken(xs: seq<Sent>)
    requires forall x :: x in xs ==> Proper(x) && FromUpstream(x) && Unbroken(x)
    ensures OnlyLastIsDone(FramesRead(Flat(Chunks(xs) + [DONE_EVENT])))
       <==> forall x :: x in xs ==> ShowsNoMarker(x)
  {
    hide *;
    FlatAppend(Chunks(xs), [DONE_EVENT]);
    FlatOne(DONE_EVENT);
    PiecesAreRead(xs, DONE_EVENT);
    ShownExactly(xs);
    DoneAlone();
    AloneAlsoRead(DONE_EVENT);
    JustOne(AsFrame(DONE_EVENT));
    assert [AsFrame(DONE_EVENT)] + [] == [AsFrame(DONE_EVENT)];
    OnlyLastAppend(EachAsFrame(AllPieces(xs)), [AsFrame(DONE_EVENT)]);
  }

  lemma SplitAtBroken(xs: seq<Sent>) returns (ys: seq<Sent>, c: Cut, payloads: seq<Bytes>)
    requires forall x :: x in xs ==> Proper(x) && FromUpstream(x)
    requires BrokenOnce(xs) && !forall x :: x in xs ==> Unbroken(x)
    ensures xs == ys + [AsItCame(c)] + OwnEach(payloads)
    ensures Relays(c) && !Unbroken(AsItCame(c)) && !Spoiled(c.raw)
    ensures forall x :: x in ys ==> Proper(x) && FromUpstream(x) && Unbroken(x)
    ensures forall p :: p in payloads ==> Trailing(p)
  {
    hide Unbroken, Relays, Spoiled, Plain, TrimSpace;
    var i :| 0 <= i < |xs| && !Unbroken(xs[i]);
    if xs[i].Own? {
      OwnIsUnbroken(xs[i]);
      assert false;
    } else {
      ys, c := xs[..i], xs[i].cut;
      assert xs[i] in xs;
      forall x | x in ys
        ensures Proper(x) && FromUpstream(x) && Unbroken(x)
      {
        var j :| 0 <= j < i && xs[j] == x;
        assert xs[j] in xs;
        BeforeBroken(xs, j, i);
      }
      payloads := PayloadsOf(xs[i + 1..]);
      assert xs == xs[..i] + [xs[i]] + xs[i + 1..];
    }
  }

  lemma BeforeBroken(xs: seq<Sent>, j: nat, i: nat)
    requires BrokenOnce(xs) && j < i < |xs| && !xs[i].Own?
    ensures Unbroken(xs[j])
  {
    hide Unbroken;
  }

  lemma OwnIsUnbroken(x: Sent)
    requires x.Own?
    ensures Unbroken(x)
  {
  }

  lemma {:induction false} PayloadsOf(xs: seq<Sent>) returns (payloads: seq<Bytes>)
    requires forall x :: x in xs ==> x.Own? && Proper(x)
    ensures xs == OwnEach(payloads) && forall p :: p in payloads ==> Trailing(p)
  {
    hide Plain, TrimSpace;
    payloads := [];
    if xs != [] {
      var rest := PayloadsOf(xs[1..]);
      assert xs[0] in xs;
      payloads := [xs[0].payload] + rest;
      assert xs == [Own(xs[0].payload)] + OwnEach(rest);
      assert payloads[1..] == rest;
    }
  }

  lemma OneBroken(ys: seq<Sent>, c: Cut, payloads: seq<Bytes>)
    requires Relays(c) && !Unbroken(AsItCame(c)) && !Spoiled(c.raw)
    requires forall x :: x in ys ==> Proper(x) && FromUpstream(x) && Unbroken(x)
    requires forall p :: p in payloads ==> Trailing(p)
    ensures
      var xs := ys + [AsItCame(c)] + OwnEach(payloads);
      OnlyLastIsDone(FramesRead(Flat(Chunks(xs) + [DONE_EVENT])))
      <==> (forall x :: x in xs ==> ShowsNoMarker(x)) && Unbroken(xs[|xs| - 1])
  {
    hide *;
    var more := Flat(EncodeEach(payloads) + [DONE_EVENT]);
    FlatOfBroken(ys, c, payloads);
    PiecesAreRead(ys, c.raw + more);
    ShownExactly(ys);
    ShownOfBroken(ys, c, payloads);
    if payloads == [] {
      AfterNothing(c);
      NoEvents();
      FlatOne(DONE_EVENT);
      assert [] + [DONE_EVENT] == [DONE_EVENT];
      NoneFollows(EachAsFrame(AllPieces(ys)), FramesRead(c.raw + more));
    } else {
      AfterEvents(c, payloads);
      OnlyLastAppend(EachAsFrame(AllPieces(ys)), FramesRead(c.raw + more));
    }
  }

  /** Directly after a frame that is broken off the client reads no end marker. */
  lemma AfterNothing(c: Cut)
    requires Relays(c) && !Unbroken(AsItCame(c))
    ensures FramesRead(c.raw + DONE_EVENT) != [] && NoMarker(FramesRead(c.raw + DONE_EVENT))
  {
    hide *;
    DoneIsPlain();
    PlainIs(DONE);
    assert Encode(DONE) + [] == DONE_EVENT;
    var f, rest := GluedIsRead(c, DONE, []);
    EmptyLineIsNotDone();
    assert [LF] + [] == [LF];
    NoFrames();
    OneMoreNone(f, FramesRead(rest));
  }

  /** If other events come in between it reads the end marker, and that last. */
  lemma AfterEvents(c: Cut, payloads: seq<Bytes>)
    requires Relays(c) && !Unbroken(AsItCame(c)) && payloads != [] && forall p :: p in payloads ==> Trailing(p)
    ensures OnlyLastIsDone(FramesRead(c.raw + Flat(EncodeEach(payloads) + [DONE_EVENT])))
  {
    hide *;
    var p, rest := payloads[0], payloads[1..];
    TrailingIs(p);
    PlainIs(p);
    EventsUnfold(payloads);
    EventsAreRead(rest);
    var f, after := GluedIsRead(c, p, Flat(EncodeEach(rest) + [DONE_EVENT]));
    OneMore(f, FramesRead(after));
  }

  lemma NoneFollows(a: seq<Frame>, b: seq<Frame>)
    requires NoMarker(b)
    ensures b != [] ==> !OnlyLastIsDone(a + b)
  {
    hide IsDone;
    if b != [] {
      assert (a + b)[|a + b| - 1] in b;
    }
  }

  lemma FlatOfBroken(ys: seq<Sent>, c: Cut, payloads: seq<Bytes>)
    requires !Spoiled(c.raw)
    ensures Flat(Chunks(ys + [AsItCame(c)] + OwnEach(payloads)) + [DONE_EVENT])
         == Flat(Chunks(ys)) + (c.raw + Flat(EncodeEach(payloads) + [DONE_EVENT]))
  {
    hide *;
    var last, events := [AsItCame(c)], EncodeEach(payloads) + [DONE_EVENT];
    ChunksAppend(ys, last);
    ChunksAppend(ys + last, OwnEach(payloads));
    ChunksOfOwn(payloads);
    ChunkOfLast(c);
    assert Chunks(ys) + [c.raw] + EncodeEach(payloads) + [DONE_EVENT] == Chunks(ys) + ([c.raw] + events);
    FlatAppend(Chunks(ys), [c.raw] + events);
    FlatFirst([c.raw] + events);
    assert ([c.raw] + events)[1..] == events;
  }

  lemma ChunkOfLast(c: Cut)
    requires !Spoiled(c.raw)
    ensures Chunks([AsItCame(c)]) == [c.raw]
  {
    hide Spoiled;
    NotSpoiledIs(c.raw);
  }

  lemma ShownOfBroken(ys: seq<Sent>, c: Cut, payloads: seq<Bytes>)
    requires Relays(c) && !Unbroken(AsItCame(c)) && !Spoiled(c.raw)
    requires forall p :: p in payloads ==> Trailing(p)
    ensures
      var xs := ys + [AsItCame(c)] + OwnEach(payloads);
      && ((forall x :: x in xs ==> ShowsNoMarker(x)) <==> forall x :: x in ys ==> ShowsNoMarker(x))
      && (Unbroken(xs[|xs| - 1]) <==> payloads != [])
  {
    hide Relays, Unbroken, ShowsNoMarker, Spoiled, Plain, TrimSpace;
    OwnAreProper(payloads);
    OnlySpoiledShow(AsItCame(c));
    forall x | x in OwnEach(payloads)
      ensures ShowsNoMarker(x) && Unbroken(x)
    {
      OnlySpoiledShow(x);
      OwnIsUnbroken(x);
    }
    var xs := ys + [AsItCame(c)] + OwnEach(payloads);
    if payloads != [] {
      assert xs[|xs| - 1] in OwnEach(payloads);
    }
    assert forall x :: x in ys ==> x in xs;
  }

  // ----- a translated stream -----------------------------------------------

  /** Of the frames relayed as they came only the last is oversized, if any. */
  ghost predicate OversizedLast(xs: seq<Sent>) {
    forall i, j :: 0 <= i < j < |xs| && xs[i].AsItCame? && xs[i].cut.oversized ==> xs[j].Own?
  }

  predicate BrokenIntact(xs: seq<Sent>) {
    forall x :: x in xs && !Unbroken(x) ==> !Spoiled(x.cut.raw)
  }

  lemma {:induction false} OnlyTheEndBreaksOff<S>(o: Options<S>, s: S, input: Bytes)
    requires o.translate.Some? && !CourseOf(o, s, input).done
    ensures
      var xs := SentOf(o, s, input);
      forall i :: 0 <= i < |xs| - 1 && xs[i].AsItCame? ==> xs[i].cut.rest != []
    decreases |input|
  {
    hide NextCut, FrameOf, IsDone, Rendered, TrimSpace, CourseOf, SentOf;
    SentUnfolds(o, s, input);
    var c := NextCut([], input);
    if c.Some? {
      CourseUnfolds(o, s, input);
      var state := Rendered(o, s, FrameOf(c.value)).state;
      OnlyTheEndBreaksOff(o, state, c.value.rest);
      if c.value.rest == [] {
        NothingSent(o, state);
      }
    }
  }

  lemma NothingSent<S>(o: Options<S>, s: S)
    requires o.translate.Some?
    ensures SentOf(o, s, []) == []
  {
    hide NextCut, FrameOf;
    CutIsFair([], []);
  }

  /** A frame of the upstream that others follow is broken off only if it is
      oversized. */
  lemma FollowedIsUnbroken(x: Sent)
    requires FromUpstream(x) && (x.AsItCame? ==> !x.cut.oversized && x.cut.rest != [])
    ensures Unbroken(x)
  {
    hide EndsInBlankLine, Relays;
    if x.AsItCame? {
      var input := CameFrom(x.cut);
      CutFacts(input, x.cut);
    }
  }

  lemma SendsBreakOnce<S>(o: Options<S>, s: S, input: Bytes)
    requires o.translate.Some? && !CourseOf(o, s, input).done
    requires OversizedLast(Sends(o, s, input)) && BrokenIntact(Sends(o, s, input))
    ensures BrokenOnce(Sends(o, s, input))
  {
    hide *;
    var xs, sent := Sends(o, s, input), SentOf(o, s, input);
    OnlyTheEndBreaksOff(o, s, input);
    SendsAreFromUpstream(o, s, input);
    var payloads := SendsParts(o, s, input);
    forall i, j | 0 <= i < j < |xs| && !xs[j].Own?
      ensures Unbroken(xs[i])
    {
      FollowedInStream(xs, sent, payloads, i, j);
      OversizedIs(xs, i, j);
      assert xs[i] in xs;
      FollowedIsUnbroken(xs[i]);
    }
    BreaksOnce(xs);
  }

  lemma SendsParts<S>(o: Options<S>, s: S, input: Bytes) returns (payloads: seq<Bytes>)
    requires o.translate.Some?
    ensures Sends(o, s, input) == SentOf(o, s, input) + OwnEach(payloads)
  {
    hide SentOf, CourseOf;
    payloads := if o.trailing.None? then [] else o.trailing.value(CourseOf(o, s, input).state);
  }

  lemma FollowedInStream(xs: seq<Sent>, sent: seq<Sent>, payloads: seq<Bytes>, i: nat, j: nat)
    requires xs == sent + OwnEach(payloads) && i < j < |xs| && !xs[j].Own?
    requires forall k :: 0 <= k < |sent| - 1 && sent[k].AsItCame? ==> sent[k].cut.rest != []
    ensures xs[i].AsItCame? ==> xs[i].cut.rest != []
  {
    assert j < |sent| && xs[i] == sent[i];
  }

  lemma OversizedIs(xs: seq<Sent>, i: nat, j: nat)
    requires OversizedLast(xs) && i < j < |xs| && !xs[j].Own?
    ensures xs[i].AsItCame? ==> !xs[i].cut.oversized
  {
  }

  lemma BreaksOnce(xs: seq<Sent>)
    requires BrokenIntact(xs)
    requires forall i, j :: 0 <= i < j < |xs| && !xs[j].Own? ==> Unbroken(xs[i])
    ensures BrokenOnce(xs)
  {
    hide Unbroken, Spoiled;
  }

  /** For a translated stream of whose frames relayed as they came only the last may
      be oversized, and in which one that is broken off has no overwritten byte: the
      client reads exactly one end marker, and that last, exactly when no relayed
      frame shows it one and the last thing sent before the end marker is not broken
      off. */
  lemma TranslatedEndsExactly<S>(o: Options<S>, s: S, input: Bytes)
    requires o.translate.Some? && !CourseOf(o, s, input).done
    requires forall x :: x in Sends(o, s, input) ==> Proper(x)
    requires OversizedLast(Sends(o, s, input)) && BrokenIntact(Sends(o, s, input))
    ensures
      var xs := Sends(o, s, input);
      OnlyLastIsDone(FramesRead(Flat(Undisturbed(o, s, input, false))))
      <==> (forall x :: x in xs ==> ShowsNoMarker(x)) && (xs == [] || Unbroken(xs[|xs| - 1]))
  {
    hide *;
    UndisturbedSends(o, s, input);
    SendsAreFromUpstream(o, s, input);
    SendsBreakOnce(o, s, input);
    MarkerIsReadExactly(Sends(o, s, input));
  }

  // ----- an end marker that is lost ----------------------------------------

  const REFUSED: Bytes := "data: x"

  function RefusesAll(): Options<bool> {
    Options(Some((s, event, data) => (s, None)), None, _ => false, false, false, false)
  }

  /** A provider whose last frame has no blank line, and a translator that fails on
      it: the client reads one event that says "xdata: [DONE]", and no end marker. */
  lemma MarkerIsLost()
    ensures
      var c, all := CourseOf(RefusesAll(), true, REFUSED), Undisturbed(RefusesAll(), true, REFUSED, false);
      && !c.done && all == [REFUSED, DONE_EVENT]
      && |FramesRead(Flat(all))| == 1
      && FramesRead(Flat(all))[0].data == Some("xdata: [DONE]") && !IsDone(FramesRead(Flat(all))[0])
  {
    hide *;
    RefusedCourse();
    FlatFirst([REFUSED, DONE_EVENT]);
    assert [REFUSED, DONE_EVENT][1..] == [DONE_EVENT];
    FlatOne(DONE_EVENT);
    var x: Bytes := "xdata: [DONE]";
    GluedPayload();
    EncodedIsAlone(x);
    EncodedFrame(x);
    AloneAlsoRead(Encode(x));
    NotDoneWithD(x);
  }

  lemma GluedPayload()
    ensures
      var x: Bytes := "xdata: [DONE]";
      REFUSED + DONE_EVENT == Encode(x) && Plain(x) && 'd' in x
  {
    assert ("xdata: [DONE]")[1] == 'd';
  }

  lemma RefusedCourse()
    ensures !CourseOf(RefusesAll(), true, REFUSED).done
    ensures Undisturbed(RefusesAll(), true, REFUSED, false) == [REFUSED, DONE_EVENT]
  {
    hide *;
    RefusedCut();
    RefusedFrame();
    OnlyX();
    FrameIs(Cut(REFUSED, false, []));
    RelayedAsItCame(REFUSED);
  }

  /** One frame that the translator fails on, and then the end marker. */
  lemma RelayedAsItCame(raw: Bytes)
    requires NextCut([], raw) == Some(Cut(raw, false, []))
    requires
      var f := FrameOf(Cut(raw, false, []));
      !IsDone(f) && TrimSpace(Payload(f)) != []
    ensures !CourseOf(RefusesAll(), true, raw).done
    ensures Undisturbed(RefusesAll(), true, raw, false) == [HandedOn(raw), DONE_EVENT]
  {
    hide *;
    var c := Cut(raw, false, []);
    FrameIs(c);
    CourseUnfolds(RefusesAll(), true, raw);
    NothingMore(RefusesAll(), true);
    RefusedRendering(true, FrameOf(c));
    UndisturbedIs(RefusesAll(), true, raw, false);
    RefusedTrailer(CourseOf(RefusesAll(), true, raw));
    assert [HandedOn(raw)] + [] == [HandedOn(raw)];
    assert [HandedOn(raw)] + [DONE_EVENT] == [HandedOn(raw), DONE_EVENT];
  }

  lemma RefusedCut()
    ensures NextCut([], REFUSED) == Some(Cut(REFUSED, false, []))
  {
    hide NextCut, FirstLF, LineLength;
    RefusedBytes();
    NoLF(REFUSED);
    RefusedLine();
    CutUnfold([], REFUSED);
    CutAtEnd(REFUSED);
    assert [] + REFUSED == REFUSED;
  }

  lemma RefusedBytes()
    ensures |REFUSED| == 7 && LF !in REFUSED && REFUSED == "data: " + ['x'] && MAX_FRAME_BYTES > 7
  {
  }

  lemma RefusedLine()
    ensures LineLength(REFUSED) == 7 && REFUSED[..7] == REFUSED && REFUSED[7..] == []
  {
    RefusedBytes();
    NoLF(REFUSED);
  }

  lemma RefusedFrame()
    ensures
      var f := FrameOf(Cut(REFUSED, false, []));
      f.raw == REFUSED && f.data == Some(['x']) && !f.oversized && !IsDone(f) && TrimSpace(Payload(f)) == ['x']
  {
    hide *;
    RefusedLines();
    var c := Cut(REFUSED, false, []);
    FrameFields(c);
    HandedOnIs(REFUSED);
    OnlyX();
    FrameIs(c);
  }

  lemma RefusedLines()
    ensures Joined(None, Lines(REFUSED)) == Some(['x']) && Overwritten(Lines(REFUSED), 0) == None
  {
    hide *;
    RefusedBytes();
    NoLF(REFUSED);
    LastLine(REFUSED);
    EncodedValue(['x']);
    NoLines();
    FirstOfLines([REFUSED], 0, None, []);
    assert [REFUSED][1..] == [];
    OneValue(REFUSED);
    OnlyX();
  }

  lemma OneValue(line: Bytes)
    requires IsData(line)
    ensures Joined1(None, line) == Some(Value(line))
  {
  }

  lemma OnlyX()
    ensures TrimSpace(['x']) == TrimCR(['x']) == ['x'] && ['x'] != DONE && ValueOf(Some(['x'])) == ['x']
  {
  }

  lemma FrameIs(c: Cut)
    ensures FrameOf(c).raw == HandedOn(c.raw) && FrameOf(c).data == Joined(None, Lines(c.raw))
    ensures FrameOf(c).oversized == c.oversized
  {
    hide HandedOn, Joined, Lines, LastEvent;
  }

  lemma RefusedRendering(s: bool, f: Frame)
    requires TrimSpace(Payload(f)) != [] && !f.oversized
    ensures
      var r := Rendered(RefusesAll(), s, f);
      r.state == s && r.chunks == [f.raw]
  {
    hide TrimSpace;
  }

  lemma RefusedTrailer(c: Course<bool>)
    ensures Trailer(RefusesAll(), c) == if c.done then [] else [DONE_EVENT]
  {
  }

  // ----- an end marker that comes early ------------------------------------

  const EARLY: Bytes := "data: [DONE]\r\ndata: x\n\n"

  /** A frame whose data is not the end marker, but whose first data line is, with a CR
      after it: the client reads two end markers, the first before the rest. */
  lemma MarkerComesEarly()
    ensures
      var c, all := CourseOf(RefusesAll(), true, EARLY), Undisturbed(RefusesAll(), true, EARLY, false);
      && !c.done && all == [HandedOn(EARLY), DONE_EVENT]
      && |FramesRead(Flat(all))| == 3
      && IsDone(FramesRead(Flat(all))[0]) && !IsDone(FramesRead(Flat(all))[1]) && IsDone(FramesRead(Flat(all))[2])
  {
    hide *;
    EarlyFrame();
    EarlyCut();
    RelayedAsItCame(EARLY);
    EarlyBytes();
    DoneIsPlain();
    var events := [Encode(DONE), Encode(['x']), Encode(DONE)];
    FlatTwo(HandedOn(EARLY), DONE_EVENT);
    FlatThree(Encode(DONE), Encode(['x']), Encode(DONE));
    XIsPlain();
    EncodedIsAlone(DONE);
    EncodedIsAlone(['x']);
    EncodedFrame(DONE);
    EncodedFrame(['x']);
    AloneAreRead(events, []);
    NothingRead();
    assert Flat(events) + [] == Flat(events) && EachAsFrame(events) + [] == EachAsFrame(events);
  }

  lemma FlatThree(a: Bytes, b: Bytes, c: Bytes)
    ensures Flat([a, b, c]) == a + b + c
  {
    hide Flat;
    FlatFirst([a, b, c]);
    assert [a, b, c][1..] == [b, c];
    FlatTwo(b, c);
  }

  lemma XIsPlain()
    ensures Plain(['x']) && TrimSpace(['x']) != DONE
  {
    OnlyX();
  }

  lemma EarlyBytes()
    ensures EARLY == DATA + " [DONE]" + [CR, LF] + Encode(['x'])
    ensures EARLY == "data: [DONE]\r" + [LF] + Encode(['x'])
    ensures HandedOn(EARLY) == Encode(DONE) + Encode(['x'])
  {
    hide *;
    XData();
    EarlyParts();
    EarlyFirst();
    SpoiledFrame(" [DONE]", Encode(['x']));
  }

  lemma EarlyFirst()
    ensures LF !in " [DONE]" && DATA + " [DONE]" + [LF, LF] == Encode(DONE)
  {
  }

  lemma EarlyParts()
    ensures EARLY == DATA + " [DONE]" + [CR, LF] + Encode(['x'])
    ensures EARLY == "data: [DONE]\r" + [LF] + Encode(['x'])
  {
    var first: Bytes, more: Bytes := "data: [DONE]\r\n", "data: x\n\n";
    assert Encode(['x']) == more;
    assert DATA + " [DONE]" + [CR, LF] == first;
    assert "data: [DONE]\r" + [LF] == first;
    assert EARLY == first + more;
  }

  lemma XData()
    ensures Lines(Encode(['x'])) == ["data: " + ['x'], [], []] && SomeData(Lines(Encode(['x'])))
    ensures IsData("data: " + ['x']) && Value("data: " + ['x']) == ['x']
  {
    hide Lines, Value, IsData, Encode;
    EncodedLines(['x']);
    EncodedValue(['x']);
    OnlyX();
    assert ("data: " + ['x']) in Lines(Encode(['x']));
  }

  /** The blank line comes third. */
  lemma EarlyCut()
    ensures NextCut([], EARLY) == Some(Cut(EARLY, false, []))
  {
    hide *;
    EarlyBytes();
    var first: Bytes := "data: [DONE]\r";
    EarlyLine();
    FirstLine(first, Encode(['x']));
    CutUnfold([], EARLY);
    var got := first + [LF];
    assert [] + got == got;
    LineIsData(['x']);
    GluedLine([], ['x'], []);
    assert [] + (Encode(['x']) + []) == Encode(['x']);
    assert [] + LineOf(['x']) + [LF] == LineOf(['x']) + [LF];
    CutUnfold(got, Encode(['x']));
    GlueBlank(got + (LineOf(['x']) + [LF]), []);
    assert got + (LineOf(['x']) + [LF]) + [LF] == EARLY;
  }

  lemma EarlyLine()
    ensures
      var first: Bytes := "data: [DONE]\r";
      LF !in first && !Blank(first + [LF]) && |first| == 13 && MAX_FRAME_BYTES > 30
    ensures LF !in ['x'] && |['x']| == 1
  {
    NotBlank("data: [DONE]\r" + [LF], 0);
  }

  lemma EarlyFrame()
    ensures
      var f := FrameOf(Cut(EARLY, false, []));
      !IsDone(f) && TrimSpace(Payload(f)) != []
  {
    hide *;
    EarlyBytes();
    EarlyLine();
    var first: Bytes := "data: [DONE]\r";
    FirstLineOf(first, Encode(['x']));
    EarlyValue();
    JoinedFirst(first, Lines(Encode(['x'])));
    XData();
    JoinedMore(DONE, "data: " + ['x']);
    FrameFields(Cut(EARLY, false, []));
    ValueIs(DONE + [LF] + ['x']);
    SaysX(DONE + [LF] + ['x']);
  }

  lemma EarlyValue()
    ensures
      var first: Bytes := "data: [DONE]\r";
      IsData(first) && Value(first) == DONE
  {
    var first: Bytes := "data: [DONE]\r";
    assert TrimCR(first) == "data: [DONE]";
  }

  lemma JoinedMore(value: Bytes, line: Bytes)
    requires IsData(line)
    ensures Joined(Some(value), [line, [], []]) == Some(value + [LF] + Value(line))
  {
    var e: seq<Bytes> := [[], []];
    assert [line, [], []][1..] == e && e[1..] == [[]];
    assert !IsData([]);
  }

  /** Data with an x in it is neither blank nor the end marker. */
  lemma SaysX(data: Bytes)
    requires 'x' in data
    ensures TrimSpace(data) != [] && TrimSpace(data) != DONE
  {
    StaysOnTheLeft(data, 'x');
    StaysOnTheRight(TrimLeft(data), 'x');
  }
}
