/** From the bytes that a provider sends to the message that a client has: frames,
    translator, relay and client put together. */
module EndToEnd {
  import opened Basics
  import opened Frames
  import opened FrameLaws
  import opened Pump
  import opened PumpLaws
  import opened ClientView
  import opened Gluing
  import opened EndMarker
  import ChatClient
  import AnthropicStream
  import GoogleStream

  type Text = ChatClient.Chunk

  /** A translator with the encodings around it: `parse` reads the event and data of
      a frame, `next` is what the translator makes of it, and the client's `decode`
      gives nothing for what is no chunk of the message. */
  datatype Dialect<!S, !I> = Dialect(
    parse: (Bytes, Bytes) -> I,
    readable: I -> bool,
    next: (S, I) -> (S, seq<Text>),
    encode: Text -> Bytes,
    decode: Bytes -> Option<Text>,
    trailing: Option<S -> seq<Bytes>>)

  function EncodeTexts(encode: Text -> Bytes, texts: seq<Text>): (r: seq<Bytes>)
    ensures |r| == |texts| && forall i :: 0 <= i < |r| ==> r[i] == encode(texts[i])
  {
    if texts == [] then [] else [encode(texts[0])] + EncodeTexts(encode, texts[1..])
  }

  function Translated<S, I>(d: Dialect<S, I>, s: S, event: Bytes, data: Bytes): (S, Option<seq<Bytes>>) {
    var i := d.parse(event, data);
    var (s', texts) := d.next(s, i);
    (s', if d.readable(i) then Some(EncodeTexts(d.encode, texts)) else None)
  }

  function OptionsOf<S, I>(d: Dialect<S, I>, drain: bool, slot: bool): Options<S> {
    Options(Some((s, event, data) => Translated(d, s, event, data)), d.trailing, _ => false, false, drain, slot)
  }

  /** The frames that the translator is asked about, as it reads them. */
  function Items<S, I>(d: Dialect<S, I>, input: Bytes): seq<I>
    decreases |input|
  {
    CutIsFair([], input);
    var c := NextCut([], input);
    if c.None? then []
    else
      ItemsIn(d, FrameOf(c.value)) + if IsDone(FrameOf(c.value)) then [] else Items(d, c.value.rest)
  }

  function ItemsIn<S, I>(d: Dialect<S, I>, f: Frame): seq<I> {
    if TrimSpace(Payload(f)) == [] then [] else [d.parse(f.event, Payload(f))]
  }

  function Run<S, I>(d: Dialect<S, I>, s: S, items: seq<I>): (S, seq<Text>)
    decreases |items|
  {
    if items == [] then (s, [])
    else
      var (s1, first) := d.next(s, items[0]);
      var (s2, rest) := Run(d, s1, items[1..]);
      (s2, first + rest)
  }

  // ----- what the client takes ---------------------------------------------

  function Taken(decode: Bytes -> Option<Text>, payload: Bytes): seq<Text> {
    if decode(payload).Some? then [decode(payload).value] else []
  }

  /** The chunks in the frames up to the end marker. */
  function Reading(decode: Bytes -> Option<Text>, frames: seq<Frame>): seq<Text> {
    if frames == [] || IsDone(frames[0]) then []
    else Taken(decode, Payload(frames[0])) + Reading(decode, frames[1..])
  }

  /** A client of these writes, up to the end marker. */
  function Received(decode: Bytes -> Option<Text>, written: seq<Bytes>): seq<Text> {
    Reading(decode, FramesRead(Flat(written)))
  }

  function Spoken(decode: Bytes -> Option<Text>, xs: seq<Sent>): seq<Text> {
    if xs == [] then []
    else (if xs[0].Own? then Taken(decode, xs[0].payload) else []) + Spoken(decode, xs[1..])
  }

  /** What was relayed as it came is whole, and is no chunk to the client. */
  predicate Passable(decode: Bytes -> Option<Text>, x: Sent) {
    Complete(x) && (x.AsItCame? ==> decode(Payload(FrameOf(x.cut))).None?)
  }

  lemma TakenOfOne(decode: Bytes -> Option<Text>, x: Sent)
    requires Proper(x) && FromUpstream(x) && Passable(decode, x)
    ensures !IsDone(AsFrame(Chunk(x)))
    ensures Taken(decode, Payload(AsFrame(Chunk(x)))) == if x.Own? then Taken(decode, x.payload) else []
  {
    hide Plain, FrameOf, IsDone, TrimSpace, Encode, HandedOn, AsFrame, FromUpstream, Whole;
    NotDoneAlone(x);
    if x.Own? {
      EncodedFrame(x.payload);
    } else {
      WholeIs(x.cut);
      NotSpoiledIs(x.cut.raw);
      FrameFields(x.cut);
      FrameFields(Cut(x.cut.raw, false, []));
      AsFrameIs(x.cut.raw);
    }
  }

  lemma AsFrameIs(raw: Bytes)
    ensures AsFrame(raw) == FrameOf(Cut(raw, false, []))
  {
  }

  lemma {:induction false} ReadingIsSpoken(decode: Bytes -> Option<Text>, xs: seq<Sent>, last: Frame)
    requires forall x :: x in xs ==> Proper(x) && FromUpstream(x) && Passable(decode, x)
    requires IsDone(last)
    ensures Reading(decode, EachAsFrame(Chunks(xs)) + [last]) == Spoken(decode, xs)
  {
    hide Proper, FromUpstream, Passable, IsDone, AsFrame, Chunk, Payload, Taken;
    var frames := EachAsFrame(Chunks(xs));
    if xs == [] {
      assert frames + [last] == [last];
    } else {
      TakenOfOne(decode, xs[0]);
      ReadingIsSpoken(decode, xs[1..], last);
      assert Chunks(xs)[1..] == Chunks(xs[1..]);
      assert frames == [AsFrame(Chunk(xs[0]))] + EachAsFrame(Chunks(xs[1..]));
      assert (frames + [last])[1..] == EachAsFrame(Chunks(xs[1..])) + [last];
    }
  }

  /** The client takes the chunks that the gateway spoke. */
  lemma ReceivedIsSpoken(decode: Bytes -> Option<Text>, xs: seq<Sent>)
    requires forall x :: x in xs ==> Proper(x) && FromUpstream(x) && Passable(decode, x)
    ensures Received(decode, Chunks(xs) + [DONE_EVENT]) == Spoken(decode, xs)
  {
    hide *;
    EachComplete(decode, xs);
    DoneAlone();
    MarkerIsRead(xs, DONE_EVENT);
    AloneAlsoRead(DONE_EVENT);
    ReadingIsSpoken(decode, xs, AsFrame(DONE_EVENT));
    ReceivedIs(decode, Chunks(xs) + [DONE_EVENT]);
  }

  lemma EachComplete(decode: Bytes -> Option<Text>, xs: seq<Sent>)
    requires forall x :: x in xs ==> Passable(decode, x)
    ensures forall x :: x in xs ==> Complete(x)
  {
    hide Complete;
  }

  lemma ReceivedIs(decode: Bytes -> Option<Text>, written: seq<Bytes>)
    ensures Received(decode, written) == Reading(decode, FramesRead(Flat(written)))
  {
  }

  // ----- what the gateway speaks -------------------------------------------

  /** An encoded chunk is a JSON object on one line that fits a frame, and the client
      decodes it. */
  ghost predicate Fits<S(!new), I(!new)>(d: Dialect<S, I>, c: Text) {
    OneObject(d.encode(c)) && d.decode(d.encode(c)) == Some(c)
  }

  predicate OneObject(p: Bytes) {
    |p| >= 2 && p[0] == '{' && p[|p| - 1] == '}' && LF !in p && |p| + 8 <= MAX_FRAME_BYTES
  }

  lemma ObjectIsProper(p: Bytes)
    requires OneObject(p)
    ensures Proper(Own(p))
  {
    hide TrimLeft, TrimRight, MAX_FRAME_BYTES;
    StaysOnTheLeft(p, '{');
    StaysOnTheRight(TrimLeft(p), '{');
  }

  lemma {:induction false} SpokenAppend(decode: Bytes -> Option<Text>, a: seq<Sent>, b: seq<Sent>)
    ensures Spoken(decode, a + b) == Spoken(decode, a) + Spoken(decode, b)
  {
    hide *;
    SpokenUnfolds(decode, a);
    SpokenUnfolds(decode, a + b);
    if a == [] {
      assert a + b == b && [] + Spoken(decode, b) == Spoken(decode, b);
    } else {
      SpokenAppend(decode, a[1..], b);
      assert (a + b)[0] == a[0] && (a + b)[1..] == a[1..] + b;
    }
  }

  lemma SpokenUnfolds(decode: Bytes -> Option<Text>, xs: seq<Sent>)
    ensures xs == [] ==> Spoken(decode, xs) == []
    ensures xs != [] ==>
      Spoken(decode, xs) == (if xs[0].Own? then Taken(decode, xs[0].payload) else []) + Spoken(decode, xs[1..])
  {
  }

  lemma {:induction false} SpokenOfOwn<S(!new), I(!new)>(d: Dialect<S, I>, texts: seq<Text>)
    requires forall c :: c in texts ==> Fits(d, c)
    ensures Spoken(d.decode, OwnEach(EncodeTexts(d.encode, texts))) == texts
    ensures forall x :: x in OwnEach(EncodeTexts(d.encode, texts)) ==> Proper(x) && Passable(d.decode, x)
  {
    hide OneObject, Proper;
    if texts != [] {
      var xs, rest := OwnEach(EncodeTexts(d.encode, texts)), OwnEach(EncodeTexts(d.encode, texts[1..]));
      assert xs[1..] == rest && xs == [xs[0]] + rest;
      assert texts == [texts[0]] + texts[1..] && texts[0] in texts;
      ObjectIsProper(d.encode(texts[0]));
      SpokenOfOwn(d, texts[1..]);
    }
  }

  lemma {:induction false} SilentTrailers<S(!new), I(!new)>(d: Dialect<S, I>, payloads: seq<Bytes>)
    requires forall p :: p in payloads ==> OneObject(p) && d.decode(p).None?
    ensures Spoken(d.decode, OwnEach(payloads)) == []
    ensures forall x :: x in OwnEach(payloads) ==> Proper(x) && Passable(d.decode, x)
  {
    hide OneObject, Proper;
    if payloads != [] {
      var xs := OwnEach(payloads);
      assert xs[1..] == OwnEach(payloads[1..]) && xs == [xs[0]] + xs[1..];
      ObjectIsProper(payloads[0]);
      SilentTrailers(d, payloads[1..]);
    }
  }

  lemma RunUnfolds<S, I>(d: Dialect<S, I>, s: S, items: seq<I>)
    ensures Run(d, s, []) == (s, [])
    ensures items != [] ==>
      var (s1, first) := d.next(s, items[0]);
      Run(d, s, items) == (Run(d, s1, items[1..]).0, first + Run(d, s1, items[1..]).1)
  {
  }

  lemma ItemsUnfold<S, I>(d: Dialect<S, I>, input: Bytes)
    ensures NextCut([], input).None? ==> Items(d, input) == []
    ensures NextCut([], input).Some? ==>
      var c := NextCut([], input).value;
      Items(d, input) == ItemsIn(d, FrameOf(c)) + if IsDone(FrameOf(c)) then [] else Items(d, c.rest)
  {
    hide NextCut, FrameOf, IsDone, ItemsIn;
  }

  /** A frame that is not readable says nothing and leaves the state alone. */
  ghost predicate QuietWhenUnreadable<S(!new), I(!new)>(d: Dialect<S, I>) {
    forall s, i :: !d.readable(i) ==> d.next(s, i) == (s, [])
  }

  /** What one frame has the translator say. */
  lemma FrameSpeaks<S(!new), I(!new)>(d: Dialect<S, I>, drain: bool, slot: bool, s: S, c: Cut)
    requires QuietWhenUnreadable(d)
    requires forall t :: t in Run(d, s, ItemsIn(d, FrameOf(c))).1 ==> Fits(d, t)
    ensures
      var o := OptionsOf(d, drain, slot);
      var xs, run := SentFor(o, s, c), Run(d, s, ItemsIn(d, FrameOf(c)));
      && Spoken(d.decode, xs) == run.1 && Rendered(o, s, FrameOf(c)).state == run.0
      && forall x :: x in xs ==> Proper(x) && (x.Own? ==> Passable(d.decode, x))
  {
    hide TrimSpace, FrameOf, Fits, Passable, Plain, Complete;
    var f := FrameOf(c);
    if TrimSpace(Payload(f)) != [] {
      var i := d.parse(f.event, Payload(f));
      var items := [i];
      assert items[1..] == [];
      var (s1, first) := d.next(s, i);
      assert first + [] == first;
      assert Run(d, s, items) == (s1, first);
      if d.readable(i) {
        SpokenOfOwn(d, first);
      }
    }
  }

  lemma {:induction false} RunAppend<S, I>(d: Dialect<S, I>, s: S, a: seq<I>, b: seq<I>)
    ensures
      var (s1, first) := Run(d, s, a);
      Run(d, s, a + b) == (Run(d, s1, b).0, first + Run(d, s1, b).1)
    decreases |a|
  {
    hide *;
    RunUnfolds(d, s, a);
    RunUnfolds(d, s, a + b);
    if a == [] {
      assert a + b == b && [] + Run(d, s, b).1 == Run(d, s, b).1;
    } else {
      var (s1, first) := d.next(s, a[0]);
      RunAppend(d, s1, a[1..], b);
      var (s2, more) := Run(d, s1, a[1..]);
      assert first + more + Run(d, s2, b).1 == first + (more + Run(d, s2, b).1);
      assert (a + b)[0] == a[0] && (a + b)[1..] == a[1..] + b;
    }
  }

  /** The chunks that the gateway sends for a stream are those of the translator's
      run over its frames. */
  lemma {:induction false} StreamSpeaks<S(!new), I(!new)>(d: Dialect<S, I>, drain: bool, slot: bool, s: S, input: Bytes)
    requires QuietWhenUnreadable(d)
    requires forall t :: t in Run(d, s, Items(d, input)).1 ==> Fits(d, t)
    ensures
      var o := OptionsOf(d, drain, slot);
      var xs, run := SentOf(o, s, input), Run(d, s, Items(d, input));
      && Spoken(d.decode, xs) == run.1 && CourseOf(o, s, input).state == run.0
      && forall x :: x in xs ==> Proper(x) && (x.Own? ==> Passable(d.decode, x))
    decreases |input|
  {
    hide *;
    var o := OptionsOf(d, drain, slot);
    Translates(d, drain, slot);
    SentUnfolds(o, s, input);
    ItemsUnfold(d, input);
    SpokenUnfolds(d.decode, []);
    RunUnfolds(d, s, []);
    NothingMore(o, s);
    var c := NextCut([], input);
    if c.None? {
      CutIsFair([], input);
      assert [] + input == input;
    } else {
      var f, cut := FrameOf(c.value), c.value;
      var a, b := ItemsIn(d, f), if IsDone(f) then [] else Items(d, cut.rest);
      var (s1, first) := Run(d, s, a);
      RunAppend(d, s, a, b);
      RunUnfolds(d, s1, []);
      FrameSpeaks(d, drain, slot, s, cut);
      CourseUnfolds(o, s, input);
      OverIs(s1);
      if !IsDone(f) {
        StreamSpeaks(d, drain, slot, s1, cut.rest);
      }
      SpokenAppend(d.decode, SentFor(o, s, cut), if IsDone(f) then [] else SentOf(o, s1, cut.rest));
    }
  }

  lemma Translates<S, I>(d: Dialect<S, I>, drain: bool, slot: bool)
    ensures OptionsOf(d, drain, slot).translate.Some? && OptionsOf(d, drain, slot).trailing == d.trailing
  {
  }

  lemma OverIs<S>(s: S)
    ensures Over(s, true).state == s
  {
  }

  function Unreadable<S, I>(d: Dialect<S, I>, items: seq<I>): nat {
    if items == [] then 0 else (if d.readable(items[0]) then 0 else 1) + Unreadable(d, items[1..])
  }

  lemma {:induction false} UnreadableAppend<S, I>(d: Dialect<S, I>, a: seq<I>, b: seq<I>)
    ensures Unreadable(d, a + b) == Unreadable(d, a) + Unreadable(d, b)
  {
    if a == [] {
      assert a + b == b;
    } else {
      UnreadableAppend(d, a[1..], b);
      assert (a + b)[0] == a[0] && (a + b)[1..] == a[1..] + b;
    }
  }

  lemma FrameRefuses<S, I>(d: Dialect<S, I>, drain: bool, slot: bool, s: S, c: Cut)
    ensures Refusals(SentFor(OptionsOf(d, drain, slot), s, c)) == Unreadable(d, ItemsIn(d, FrameOf(c)))
  {
    hide TrimSpace, FrameOf;
    var f := FrameOf(c);
    if TrimSpace(Payload(f)) != [] {
      var i := d.parse(f.event, Payload(f));
      assert [i][1..] == [];
      if d.readable(i) {
        NoRefusals(EncodeTexts(d.encode, d.next(s, i).1));
      }
    }
  }

  lemma NothingRefused<S, I>(d: Dialect<S, I>)
    ensures Refusals([]) == 0 && Unreadable(d, []) == 0
  {
  }

  /** The frames that the translator cannot read, as many as they are, are relayed as
      they came, and they are the faults of a stream beside its oversized frames. */
  lemma {:induction false} UnreadableAreRelayed<S, I>(d: Dialect<S, I>, drain: bool, slot: bool, s: S, input: Bytes)
    ensures
      var o := OptionsOf(d, drain, slot);
      && Refusals(SentOf(o, s, input)) == Unreadable(d, Items(d, input))
      && CourseOf(o, s, input).faults == OversizedCount(UpToDone(input).0) + Unreadable(d, Items(d, input))
    decreases |input|
  {
    hide *;
    var o := OptionsOf(d, drain, slot);
    Translates(d, drain, slot);
    FaultsExactly(o, s, input);
    SentUnfolds(o, s, input);
    ItemsUnfold(d, input);
    NothingRefused(d);
    var c := NextCut([], input);
    if c.Some? {
      var f, cut := FrameOf(c.value), c.value;
      var rest := Rendered(o, s, f).state;
      FrameRefuses(d, drain, slot, s, cut);
      UnreadableAppend(d, ItemsIn(d, f), if IsDone(f) then [] else Items(d, cut.rest));
      RefusalsAppend(SentFor(o, s, cut), if IsDone(f) then [] else SentOf(o, rest, cut.rest));
      if !IsDone(f) {
        UnreadableAreRelayed(d, drain, slot, rest, cut.rest);
      }
    }
  }

  // ----- the whole way -----------------------------------------------------

  /** A stream without an end marker of its own, whose chunks and trailers fit and
      whose unreadable frames are whole and no chunks. */
  ghost predicate Clean<S(!new), I(!new)>(d: Dialect<S, I>, drain: bool, slot: bool, s: S, input: Bytes) {
    var o := OptionsOf(d, drain, slot);
    var c := CourseOf(o, s, input);
    && !c.done
    && (forall t :: t in Run(d, s, Items(d, input)).1 ==> Fits(d, t))
    && (d.trailing.Some? ==> forall p :: p in d.trailing.value(c.state) ==> OneObject(p) && d.decode(p).None?)
    && (forall x :: x in SentOf(o, s, input) && x.AsItCame? ==> Passable(d.decode, x))
  }

  /** The client of a clean stream receives exactly the translator's chunks. */
  lemma ClientReceives<S(!new), I(!new)>(d: Dialect<S, I>, drain: bool, slot: bool, s: S, input: Bytes)
    requires QuietWhenUnreadable(d) && Clean(d, drain, slot, s, input)
    ensures
      var o := OptionsOf(d, drain, slot);
      Received(d.decode, Undisturbed(o, s, input, false)) == Run(d, s, Items(d, input)).1
  {
    hide *;
    var o := OptionsOf(d, drain, slot);
    Translates(d, drain, slot);
    var payloads := CleanParts(d, drain, slot, s, input);
    StreamSpeaks(d, drain, slot, s, input);
    SilentTrailers(d, payloads);
    SpokenAppend(d.decode, SentOf(o, s, input), OwnEach(payloads));
    SendsAreFromUpstream(o, s, input);
    UndisturbedSends(o, s, input);
    ReceivedIsSpoken(d.decode, Sends(o, s, input));
    assert Run(d, s, Items(d, input)).1 + [] == Run(d, s, Items(d, input)).1;
  }

  lemma CleanParts<S(!new), I(!new)>(d: Dialect<S, I>, drain: bool, slot: bool, s: S, input: Bytes)
      returns (payloads: seq<Bytes>)
    requires Clean(d, drain, slot, s, input)
    ensures
      var o := OptionsOf(d, drain, slot);
      && o.translate.Some? && !CourseOf(o, s, input).done
      && (forall t :: t in Run(d, s, Items(d, input)).1 ==> Fits(d, t))
      && (forall p :: p in payloads ==> OneObject(p) && d.decode(p).None?)
      && (forall x :: x in SentOf(o, s, input) && x.AsItCame? ==> Passable(d.decode, x))
      && Sends(o, s, input) == SentOf(o, s, input) + OwnEach(payloads)
  {
    hide CourseOf, SentOf, Fits, Passable, Run, Items, OneObject;
    var o := OptionsOf(d, drain, slot);
    payloads := if d.trailing.None? then [] else d.trailing.value(CourseOf(o, s, input).state);
  }

  /** A relay of a stream to a client whose failures are sticky. */
  method Serve<S(!new), I(!new)>(client: Client, reader: FrameReader, d: Dialect<S, I>, s: S, drain: bool, slot: bool)
    requires !client.seenGone && client.delivered == [] && AlwaysSticky(client.works) && QuietWhenUnreadable(d)
    modifies client, reader
    ensures client.delivered <= Undisturbed(OptionsOf(d, drain, slot), s, old(reader.input), reader.breaks)
    ensures
      AlwaysWorks(client.works) && NeverGone(client.gone) && !reader.breaks
      && Clean(d, drain, slot, s, old(reader.input)) ==>
        Received(d.decode, client.delivered) == Run(d, s, Items(d, old(reader.input))).1
  {
    hide *;
    ghost var input := reader.input;
    RelayTo(client, reader, OptionsOf(d, drain, slot), s);
    if Clean(d, drain, slot, s, input) {
      ClientReceives(d, drain, slot, s, input);
    }
  }

  /** What encodes chunks as objects never says the end marker. */
  lemma ObjectsNeverSayDone<S(!new), I(!new)>(d: Dialect<S, I>, drain: bool, slot: bool)
    requires forall c :: d.encode(c) != [] && d.encode(c)[0] == '{'
    requires d.trailing.Some? ==> forall s, p :: p in d.trailing.value(s) ==> p != [] && p[0] == '{'
    ensures NeverSaysDone(OptionsOf(d, drain, slot))
  {
    assert DONE[0] == '[';
    forall s, event, data
      ensures
        var chunks := Translated(d, s, event, data).1;
        chunks.Some? ==> DONE !in chunks.value
    {
      NoTextIsDone(d.encode, d.next(s, d.parse(event, data)).1);
    }
  }

  lemma NoTextIsDone(encode: Text -> Bytes, texts: seq<Text>)
    requires forall c :: encode(c) != [] && encode(c)[0] == '{'
    ensures DONE !in EncodeTexts(encode, texts)
  {
    var payloads := EncodeTexts(encode, texts);
    forall i | 0 <= i < |payloads|
      ensures payloads[i][..1] == "{"
    {
    }
  }

  // ----- the two translators -----------------------------------------------

  /** The dialect is that of the Messages translator. */
  ghost predicate SpeaksMessages(d: Dialect<AnthropicStream.State, AnthropicStream.Item>) {
    && (forall s, i :: d.next(s, i) == AnthropicStream.Next(s, i))
    && (forall i :: d.readable(i) <==> i.1.Some?)
  }

  ghost predicate SpeaksGenerated(d: Dialect<GoogleStream.State, GoogleStream.Item>) {
    && (forall s, i :: d.next(s, i) == GoogleStream.Next(s, i))
    && (forall i :: d.readable(i) <==> i.Some?)
  }

  lemma MessagesAreQuiet(d: Dialect<AnthropicStream.State, AnthropicStream.Item>)
    requires SpeaksMessages(d)
    ensures QuietWhenUnreadable(d)
  {
  }

  lemma GeneratedIsQuiet(d: Dialect<GoogleStream.State, GoogleStream.Item>)
    requires SpeaksGenerated(d)
    ensures QuietWhenUnreadable(d)
  {
  }

  lemma {:induction false} SameRunOfMessages(d: Dialect<AnthropicStream.State, AnthropicStream.Item>,
                                             s: AnthropicStream.State, items: seq<AnthropicStream.Item>)
    requires SpeaksMessages(d)
    ensures Run(d, s, items) == AnthropicStream.Run(s, items)
    decreases |items|
  {
    hide AnthropicStream.Next;
    if items != [] {
      SameRunOfMessages(d, d.next(s, items[0]).0, items[1..]);
    }
  }

  lemma {:induction false} SameRunOfGenerated(d: Dialect<GoogleStream.State, GoogleStream.Item>,
                                              s: GoogleStream.State, items: seq<GoogleStream.Item>)
    requires SpeaksGenerated(d)
    ensures Run(d, s, items) == GoogleStream.Run(s, items)
    decreases |items|
  {
    hide GoogleStream.Next;
    if items != [] {
      SameRunOfGenerated(d, d.next(s, items[0]).0, items[1..]);
    }
  }

  /** From the bytes of a Messages stream the client has, at its end marker, the text,
      the calls and the finish reason of the whole message. */
  lemma MessagesReachTheClient(d: Dialect<AnthropicStream.State, AnthropicStream.Item>, drain: bool, slot: bool,
                               input: Bytes, compact: string -> string)
    requires SpeaksMessages(d) && Clean(d, drain, slot, AnthropicStream.INITIAL, input)
    requires AnthropicStream.AllWellFormed(AnthropicStream.Whole([], ""), Items(d, input))
    ensures
      var written := Undisturbed(OptionsOf(d, drain, slot), AnthropicStream.INITIAL, input, false);
      var m := ChatClient.Assemble(ChatClient.EMPTY, Received(d.decode, written));
      var w := AnthropicStream.DescribeAll(AnthropicStream.Whole([], ""), Items(d, input));
      && m.text == AnthropicStream.TextOf(w.blocks)
      && AnthropicStream.Encoded(compact, m.tools)
           == AnthropicStream.Encoded(compact, AnthropicStream.ToolsOf(w.blocks))
      && (m.finish == Some(AnthropicStream.FinishOfResponse(w.stop)) <==> w.stop != "")
  {
    hide *;
    MessagesAreQuiet(d);
    ClientReceives(d, drain, slot, AnthropicStream.INITIAL, input);
    SameRunOfMessages(d, AnthropicStream.INITIAL, Items(d, input));
    AnthropicStream.StreamedIsWhole(Items(d, input), compact);
  }

  /** From the bytes of a generateContent stream the client has the text of all parts
      that are not calls, and all the calls in order. */
  lemma GeneratedReachTheClient(d: Dialect<GoogleStream.State, GoogleStream.Item>, drain: bool, slot: bool,
                                input: Bytes)
    requires SpeaksGenerated(d) && Clean(d, drain, slot, GoogleStream.INITIAL, input)
    ensures
      var written := Undisturbed(OptionsOf(d, drain, slot), GoogleStream.INITIAL, input, false);
      var m := ChatClient.Assemble(ChatClient.EMPTY, Received(d.decode, written));
      var parts := GoogleStream.AllParts(Items(d, input));
      m.text == GoogleStream.SpokenText(parts) && m.tools == GoogleStream.CallsOf(parts)
  {
    hide *;
    GeneratedIsQuiet(d);
    ClientReceives(d, drain, slot, GoogleStream.INITIAL, input);
    SameRunOfGenerated(d, GoogleStream.INITIAL, Items(d, input));
    GoogleStream.StreamedParts(Items(d, input));
  }
}
