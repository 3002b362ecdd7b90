/** Whether a client of a translated stream reads the end marker that closes it. */
module EndMarker {
  import opened Basics
  import opened Frames
  import opened FrameLaws
  import opened Pump
  import opened PumpLaws
  import opened ClientView
  import opened Gluing

  // ----- what a translated stream sends ------------------------------------

  /** A payload of the gateway's own, or a frame of the upstream as it came, because
      its translation failed. */
  datatype Sent = Own(payload: Bytes) | AsItCame(cut: Cut)

  function Chunk(x: Sent): Bytes {
    match x
    case Own(payload) => Encode(payload)
    case AsItCame(cut) => HandedOn(cut.raw)
  }

  function Chunks(xs: seq<Sent>): (r: seq<Bytes>)
    ensures |r| == |xs| && forall i :: 0 <= i < |xs| ==> r[i] == Chunk(xs[i])
  {
    if xs == [] then [] else [Chunk(xs[0])] + Chunks(xs[1..])
  }

  function OwnEach(payloads: seq<Bytes>): (r: seq<Sent>)
    ensures |r| == |payloads| && forall i :: 0 <= i < |r| ==> r[i] == Own(payloads[i])
  {
    if payloads == [] then [] else [Own(payloads[0])] + OwnEach(payloads[1..])
  }

  function SentFor<S>(o: Options<S>, s: S, c: Cut): seq<Sent>
    requires o.translate.Some?
  {
    var f := FrameOf(c);
    if TrimSpace(Payload(f)) == [] then []
    else
      var chunks := o.translate.value(s, f.event, Payload(f)).1;
      if chunks.None? then [AsItCame(c)] else OwnEach(chunks.value)
  }

  function SentOf<S>(o: Options<S>, s: S, input: Bytes): seq<Sent>
    requires o.translate.Some?
    decreases |input|
  {
    CutIsFair([], input);
    var c := NextCut([], input);
    if c.None? then []
    else
      SentFor(o, s, c.value)
      + if IsDone(FrameOf(c.value)) then [] else SentOf(o, Rendered(o, s, FrameOf(c.value)).state, c.value.rest)
  }

  /** All that comes before the end marker. */
  function Sends<S>(o: Options<S>, s: S, input: Bytes): seq<Sent>
    requires o.translate.Some?
  {
    SentOf(o, s, input)
    + if o.trailing.None? then [] else OwnEach(o.trailing.value(CourseOf(o, s, input).state))
  }

  lemma SentUnfolds<S>(o: Options<S>, s: S, input: Bytes)
    requires o.translate.Some?
    ensures NextCut([], input).None? ==> SentOf(o, s, input) == [] && CourseOf(o, s, input) == Over(s, false)
    ensures NextCut([], input).Some? ==>
      var c := NextCut([], input).value;
      && |c.rest| < |input|
      && SentOf(o, s, input)
           == SentFor(o, s, c)
              + if IsDone(FrameOf(c)) then [] else SentOf(o, Rendered(o, s, FrameOf(c)).state, c.rest)
  {
    hide NextCut, FrameOf, IsDone, SentFor, Rendered;
    CutIsFair([], input);
  }

  lemma ChunksAppend(a: seq<Sent>, b: seq<Sent>)
    ensures Chunks(a + b) == Chunks(a) + Chunks(b)
  {
  }

  lemma ChunksOfOwn(payloads: seq<Bytes>)
    ensures Chunks(OwnEach(payloads)) == EncodeEach(payloads)
  {
    hide Encode;
  }

  lemma ChunksFor<S>(o: Options<S>, s: S, c: Cut)
    requires o.translate.Some?
    ensures Chunks(SentFor(o, s, c)) == Rendered(o, s, FrameOf(c)).chunks
  {
    hide TrimSpace, HandedOn, Lines, Joined, LastEvent;
    var f := FrameOf(c);
    var chunks := o.translate.value(s, f.event, Payload(f)).1;
    if chunks.Some? {
      ChunksOfOwn(chunks.value);
    }
  }

  lemma {:induction false} ChunksOfSent<S>(o: Options<S>, s: S, input: Bytes)
    requires o.translate.Some?
    ensures Chunks(SentOf(o, s, input)) == CourseOf(o, s, input).chunks
    decreases |input|
  {
    hide NextCut, FrameOf, IsDone, SentFor, Rendered, Chunks, SentOf, CourseOf;
    SentUnfolds(o, s, input);
    NoChunks();
    var c := NextCut([], input);
    if c.Some? {
      var f := FrameOf(c.value);
      CourseUnfolds(o, s, input);
      ChunksFor(o, s, c.value);
      if !IsDone(f) {
        var state := Rendered(o, s, f).state;
        ChunksOfSent(o, state, c.value.rest);
        ChunksAppend(SentFor(o, s, c.value), SentOf(o, state, c.value.rest));
      } else {
        assert SentFor(o, s, c.value) + [] == SentFor(o, s, c.value);
      }
    }
  }

  lemma NoChunks()
    ensures Chunks([]) == []
  {
  }

  lemma UndisturbedSends<S>(o: Options<S>, s: S, input: Bytes)
    requires o.translate.Some? && !CourseOf(o, s, input).done
    ensures Undisturbed(o, s, input, false) == Chunks(Sends(o, s, input)) + [DONE_EVENT]
  {
    hide CourseOf, SentOf, Chunks;
    ChunksOfSent(o, s, input);
    var trailing := if o.trailing.None? then [] else o.trailing.value(CourseOf(o, s, input).state);
    ChunksOfOwn(trailing);
    ChunksAppend(SentOf(o, s, input), OwnEach(trailing));
  }

  // ----- what is observed and counted --------------------------------------

  function Refusals(xs: seq<Sent>): nat {
    if xs == [] then 0 else (if xs[0].AsItCame? then 1 else 0) + Refusals(xs[1..])
  }

  lemma {:induction false} RefusalsAppend(a: seq<Sent>, b: seq<Sent>)
    ensures Refusals(a + b) == Refusals(a) + Refusals(b)
  {
    if a == [] {
      assert a + b == b;
    } else {
      RefusalsAppend(a[1..], b);
      assert (a + b)[0] == a[0] && (a + b)[1..] == a[1..] + b;
    }
  }

  lemma {:induction false} NoRefusals(payloads: seq<Bytes>)
    ensures Refusals(OwnEach(payloads)) == 0
  {
    if payloads != [] {
      NoRefusals(payloads[1..]);
      assert OwnEach(payloads)[1..] == OwnEach(payloads[1..]);
    }
  }

  /** With a translator nothing is observed, and the faults are the oversized frames and
      those that the translator refused, each of which is relayed as it came. */
  lemma {:induction false} FaultsExactly<S>(o: Options<S>, s: S, input: Bytes)
    requires o.translate.Some?
    ensures CourseOf(o, s, input).observed == []
    ensures CourseOf(o, s, input).faults == OversizedCount(UpToDone(input).0) + Refusals(SentOf(o, s, input))
    decreases |input|
  {
    hide *;
    UpToDoneUnfolds(input);
    SentUnfolds(o, s, input);
    NoRefusals([]);
    NothingOwn();
    var c := NextCut([], input);
    if c.None? {
      CourseEnds(o, s, input);
      UsagesFirst(o.isUsage, Cut([], false, []), []);
    } else {
      var cut := c.value;
      var f, state := FrameOf(cut), Rendered(o, s, FrameOf(cut)).state;
      var sent := if IsDone(f) then [] else SentOf(o, state, cut.rest);
      var rest := if IsDone(f) then [] else UpToDone(cut.rest).0;
      CourseUnfolds(o, s, input);
      RenderedRefuses(o, s, cut);
      UsagesFirst(o.isUsage, cut, rest);
      RefusalsAppend(SentFor(o, s, cut), sent);
      OverIsEmpty(state);
      assert [cut] + [] == [cut];
      if !IsDone(f) {
        FaultsExactly(o, state, cut.rest);
      }
    }
  }

  lemma NothingOwn()
    ensures OwnEach([]) == []
  {
  }

  lemma RenderedRefuses<S>(o: Options<S>, s: S, c: Cut)
    requires o.translate.Some?
    ensures
      var r := Rendered(o, s, FrameOf(c));
      r.observed == [] && r.faults == (if c.oversized then 1 else 0) + Refusals(SentFor(o, s, c))
  {
    hide TrimSpace, HandedOn, Lines, Joined, LastEvent;
    var f := FrameOf(c);
    var chunks := o.translate.value(s, f.event, Payload(f)).1;
    if chunks.Some? {
      NoRefusals(chunks.value);
    }
  }

  // ----- where the frames come from ----------------------------------------

  /** A frame that a cut of the upstream gives, that is not its end marker and that
      the translator is asked about. */
  ghost predicate Relays(c: Cut) {
    && (exists input: Bytes :: NextCut([], input) == Some(c))
    && !IsDone(FrameOf(c)) && TrimSpace(Payload(FrameOf(c))) != []
  }

  ghost predicate FromUpstream(x: Sent) {
    x.AsItCame? ==> Relays(x.cut)
  }

  lemma {:induction false} SentAreFromUpstream<S>(o: Options<S>, s: S, input: Bytes)
    requires o.translate.Some? && !CourseOf(o, s, input).done
    ensures forall x :: x in SentOf(o, s, input) ==> FromUpstream(x)
    decreases |input|
  {
    hide NextCut, FrameOf, IsDone, Rendered, TrimSpace, CourseOf, SentOf;
    SentUnfolds(o, s, input);
    var c := NextCut([], input);
    if c.Some? {
      CourseUnfolds(o, s, input);
      SentAreFromUpstream(o, Rendered(o, s, FrameOf(c.value)).state, c.value.rest);
    }
  }

  lemma SendsAreFromUpstream<S>(o: Options<S>, s: S, input: Bytes)
    requires o.translate.Some? && !CourseOf(o, s, input).done
    ensures forall x :: x in Sends(o, s, input) ==> FromUpstream(x)
  {
    hide CourseOf, SentOf;
    SentAreFromUpstream(o, s, input);
  }

  // ----- what the client reads ---------------------------------------------

  /** One end marker, and nothing after it. */
  predicate OnlyLastIsDone(frames: seq<Frame>) {
    frames != [] && IsDone(frames[|frames| - 1]) && NoMarker(frames[..|frames| - 1])
  }

  predicate NoMarker(frames: seq<Frame>) {
    forall f :: f in frames ==> !IsDone(f)
  }

  /** The gateway's own payloads fit a frame, and none reads as the end marker. */
  predicate Proper(x: Sent) {
    x.Own? ==> Plain(x.payload) && TrimSpace(x.payload) != DONE
  }

  predicate Complete(x: Sent) {
    x.AsItCame? ==> Whole(x.cut)
  }

  lemma AloneIfComplete(x: Sent)
    requires Proper(x) && FromUpstream(x)
    ensures Alone(Chunk(x)) <==> Complete(x)
  {
    hide Alone, Whole, Plain, NextCut, FrameOf, IsDone, TrimSpace, Encode, HandedOn;
    if x.Own? {
      EncodedIsAlone(x.payload);
    } else {
      var input: Bytes :| NextCut([], input) == Some(x.cut);
      AloneExactly(input, x.cut);
    }
  }

  lemma NotDoneAlone(x: Sent)
    requires Proper(x) && FromUpstream(x) && Complete(x)
    ensures !IsDone(AsFrame(Chunk(x)))
  {
    hide Alone, Plain, NextCut, FrameOf, IsDone, TrimSpace, Encode, HandedOn, AsFrame;
    if x.Own? {
      EncodedFrame(x.payload);
    } else {
      WholeIs(x.cut);
      NotSpoiledIs(x.cut.raw);
      SameFields(x.cut);
    }
  }

  lemma SameFields(c: Cut)
    ensures IsDone(AsFrame(c.raw)) <==> IsDone(FrameOf(c))
  {
    hide HandedOn, LastEvent, Joined, TrimSpace;
  }

  lemma DoneAlone()
    ensures Alone(DONE_EVENT) && IsDone(AsFrame(DONE_EVENT))
  {
    hide *;
    DoneIsPlain();
    EncodedIsAlone(DONE);
    EncodedFrame(DONE);
  }

  /** The client reads what was written, one frame for each chunk, and with that one
      end marker and nothing after it, exactly when every frame relayed as it came
      has all its bytes, the blank line at its end among them. */
  lemma ReadToTheEnd(xs: seq<Sent>)
    requires forall x :: x in xs ==> Proper(x) && FromUpstream(x)
    ensures
      var all := Chunks(xs) + [DONE_EVENT];
      ReadAsWritten(all) && OnlyLastIsDone(FramesRead(Flat(all))) <==> forall x :: x in xs ==> Complete(x)
  {
    hide *;
    var all := Chunks(xs) + [DONE_EVENT];
    DoneAlone();
    ReadAsWrittenExactly(all);
    EachAlone(xs);
    if forall x :: x in xs ==> Complete(x) {
      MarkerIsRead(xs, DONE_EVENT);
      OneMarker(xs);
    }
  }

  lemma EachAlone(xs: seq<Sent>)
    requires forall x :: x in xs ==> Proper(x) && FromUpstream(x)
    requires Alone(DONE_EVENT)
    ensures
      var all := Chunks(xs) + [DONE_EVENT];
      && all != [] && all[|all| - 1] == DONE_EVENT
      && ((forall c :: c in all ==> Alone(c)) <==> forall x :: x in xs ==> Complete(x))
  {
    hide Alone, Proper, FromUpstream, Complete, Chunk;
    var all := Chunks(xs) + [DONE_EVENT];
    forall i | 0 <= i < |xs|
      ensures all[i] == Chunk(xs[i]) && (Alone(all[i]) <==> Complete(xs[i]))
    {
      AloneIfComplete(xs[i]);
    }
    if forall c :: c in all ==> Alone(c) {
      forall x | x in xs
        ensures Complete(x)
      {
        var i :| 0 <= i < |xs| && xs[i] == x;
        assert all[i] in all;
      }
    }
  }

  /** Complete chunks are read one by one, none of them as the end marker, and then
      what comes after them. */
  lemma MarkerIsRead(xs: seq<Sent>, tail: Bytes)
    requires forall x :: x in xs ==> Proper(x) && FromUpstream(x) && Complete(x)
    ensures FramesRead(Flat(Chunks(xs) + [tail])) == EachAsFrame(Chunks(xs)) + FramesRead(tail)
    ensures NoMarker(EachAsFrame(Chunks(xs)))
  {
    hide Alone, Proper, FromUpstream, Complete, Chunk, FramesRead, Flat, IsDone, AsFrame;
    var chunks := Chunks(xs);
    forall i | 0 <= i < |xs|
      ensures Alone(chunks[i]) && !IsDone(AsFrame(chunks[i]))
    {
      AloneIfComplete(xs[i]);
      NotDoneAlone(xs[i]);
    }
    forall f | f in EachAsFrame(chunks)
      ensures !IsDone(f)
    {
      var i :| 0 <= i < |chunks| && f == EachAsFrame(chunks)[i];
      assert f == AsFrame(chunks[i]);
    }
    FlatAppend(chunks, [tail]);
    FlatOne(tail);
    AloneAreRead(chunks, tail);
  }

  lemma FlatOne(tail: Bytes)
    ensures Flat([tail]) == tail
  {
  }

  lemma OneMarker(xs: seq<Sent>)
    requires Alone(DONE_EVENT) && IsDone(AsFrame(DONE_EVENT))
    requires NoMarker(EachAsFrame(Chunks(xs)))
    ensures OnlyLastIsDone(EachAsFrame(Chunks(xs)) + FramesRead(DONE_EVENT))
  {
    hide Alone, FramesRead, Flat, IsDone, AsFrame, Chunks, EachAsFrame, NoMarker;
    AloneAlsoRead(DONE_EVENT);
    var frames := EachAsFrame(Chunks(xs));
    assert (frames + [AsFrame(DONE_EVENT)])[..|frames|] == frames;
  }

  lemma AloneAlsoRead(raw: Bytes)
    requires Alone(raw)
    ensures FramesRead(raw) == [AsFrame(raw)]
  {
    hide *;
    AloneIsCut(raw, []);
    assert raw + [] == raw;
    FirstRead(raw);
    SameFrame(raw, []);
    NothingRead();
  }

  /** So for a translated stream whose provider sends no end marker. */
  lemma TranslatedIsReadToTheEnd<S>(o: Options<S>, s: S, input: Bytes)
    requires o.translate.Some? && !CourseOf(o, s, input).done
    requires forall x :: x in Sends(o, s, input) ==> Proper(x)
    ensures
      var all := Undisturbed(o, s, input, false);
      ReadAsWritten(all) && OnlyLastIsDone(FramesRead(Flat(all)))
      <==> forall x :: x in Sends(o, s, input) ==> Complete(x)
  {
    hide *;
    UndisturbedSends(o, s, input);
    SendsAreFromUpstream(o, s, input);
    ReadToTheEnd(Sends(o, s, input));
  }

  // ----- what frames say --------------------------------------------------

  lemma FrameFields(c: Cut)
    ensures IsDone(FrameOf(c)) <==> TrimSpace(ValueOf(Joined(None, Lines(c.raw)))) == DONE
    ensures Payload(FrameOf(c)) == ValueOf(Joined(None, Lines(c.raw)))
  {
    hide HandedOn, LastEvent, Joined, TrimSpace, Lines;
  }

  lemma SaysIs(data: Option<Bytes>)
    ensures Says(data) <==> TrimSpace(ValueOf(data)) != [] && TrimSpace(ValueOf(data)) != DONE
    ensures NotDone(data) <==> TrimSpace(ValueOf(data)) != DONE
  {
  }

  lemma CameFrom(c: Cut) returns (input: Bytes)
    requires Relays(c)
    ensures NextCut([], input) == Some(c)
    ensures Says(Joined(None, Lines(c.raw))) && !IsDone(FrameOf(c))
  {
    hide FrameOf, IsDone, TrimSpace, NextCut, Joined, Lines, ValueOf, Payload;
    FrameFields(c);
    input :| NextCut([], input) == Some(c);
  }

  lemma NothingMore<S>(o: Options<S>, s: S)
    ensures CourseOf(o, s, []) == Course(s, [], [], 0, false)
  {
    hide NextCut;
    CutIsFair([], []);
  }
}
