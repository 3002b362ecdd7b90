/** What a client receives, however it behaves. */
module PumpLaws {
  import opened Basics
  import opened Frames
  import opened FrameLaws
  import opened Pump

  // ----- a client that fails -----------------------------------------------

  /** A write that fails is followed by no write that works. */
  ghost predicate Sticky(works: nat -> bool, n: nat, count: nat) {
    forall i, j :: n <= i < j < n + count && works(j) ==> works(i)
  }

  lemma {:induction false} NoneWork(works: nat -> bool, n: nat, chunks: seq<Bytes>)
    requires forall i :: n <= i < n + |chunks| ==> !works(i)
    ensures Kept(works, n, chunks) == []
    decreases |chunks|
  {
    if chunks != [] {
      NoneWork(works, n + 1, chunks[1..]);
    }
  }

  lemma {:induction false} AllWork(works: nat -> bool, n: nat, chunks: seq<Bytes>)
    requires AlwaysWorks(works)
    ensures Kept(works, n, chunks) == chunks
    decreases |chunks|
  {
    if chunks != [] {
      AllWork(works, n + 1, chunks[1..]);
    }
  }

  lemma {:induction false} KeptAreAmong(works: nat -> bool, n: nat, chunks: seq<Bytes>, chunk: Bytes)
    requires chunk in Kept(works, n, chunks)
    ensures chunk in chunks
    decreases |chunks|
  {
    if chunks != [] && !(works(n) && chunk == chunks[0]) {
      KeptAreAmong(works, n + 1, chunks[1..], chunk);
    }
  }

  predicate Different(chunks: seq<Bytes>) {
    forall i, j :: 0 <= i < j < |chunks| ==> chunks[i] != chunks[j]
  }

  /** The trailers are written without a look at the errors. What arrives of them
      is a prefix if failures are sticky, and, where no two are the same, only
      then. */
  lemma {:induction false} TrailersArePrefixExactly(works: nat -> bool, n: nat, chunks: seq<Bytes>)
    ensures Sticky(works, n, |chunks|) ==> Kept(works, n, chunks) <= chunks
    ensures Different(chunks) && Kept(works, n, chunks) <= chunks ==> Sticky(works, n, |chunks|)
    decreases |chunks|
  {
    if chunks != [] {
      var rest := chunks[1..];
      TrailersArePrefixExactly(works, n + 1, rest);
      if works(n) {
        assert Kept(works, n, chunks)[1..] == Kept(works, n + 1, rest);
        assert Sticky(works, n + 1, |rest|) ==> Sticky(works, n, |chunks|);
        assert Sticky(works, n, |chunks|) ==> Sticky(works, n + 1, |rest|);
      } else if Kept(works, n + 1, rest) == [] {
        NothingKeptMeans(works, n + 1, rest);
      } else {
        var first := Kept(works, n + 1, rest)[0];
        KeptAreAmong(works, n + 1, rest, first);
        if Sticky(works, n, |chunks|) {
          NoneWork(works, n + 1, rest);
        }
      }
    }
  }

  lemma {:induction false} NothingKeptMeans(works: nat -> bool, n: nat, chunks: seq<Bytes>)
    requires Kept(works, n, chunks) == []
    ensures forall i :: n <= i < n + |chunks| ==> !works(i)
    decreases |chunks|
  {
    if chunks != [] {
      NothingKeptMeans(works, n + 1, chunks[1..]);
    }
  }

  /** The trailers too are a prefix for a client whose failures are sticky. */
  lemma DeliveredIsPrefix<S>(o: Options<S>, s: S, input: Bytes, breaks: bool, works: nat -> bool, n: nat,
                             out: seq<Bytes>, finished: bool)
    requires
      var c := CourseOf(o, s, input);
      && out <= c.chunks && (finished ==> out == c.chunks && (breaks ==> c.done))
      && Sticky(works, n, |Trailer(o, c)|)
    ensures
      var c := CourseOf(o, s, input);
      var delivered := if finished then out + Kept(works, n, Trailer(o, c)) else out;
      && delivered <= Undisturbed(o, s, input, breaks)
      && (finished && AlwaysWorks(works) ==> delivered == Undisturbed(o, s, input, breaks))
  {
    hide CourseOf, Trailer, Kept, AlwaysWorks;
    var trailer := Trailer(o, CourseOf(o, s, input));
    TrailersArePrefixExactly(works, n, trailer);
    if AlwaysWorks(works) {
      AllWork(works, n, trailer);
    }
  }

  ghost predicate AlwaysSticky(works: nat -> bool) {
    forall i, j :: i <= j && works(j) ==> works(i)
  }

  lemma StickyAnywhere(works: nat -> bool, n: nat, count: nat)
    requires AlwaysSticky(works)
    ensures Sticky(works, n, count)
  {
  }

  /** A whole relay: a client with sticky failures receives a prefix of what an
      undisturbed one receives, and all of it if it stays and no write fails, whether
      the upstream ends or breaks. */
  method RelayTo<S>(client: Client, reader: FrameReader, o: Options<S>, s: S)
    requires !client.seenGone && client.delivered == [] && AlwaysSticky(client.works)
    modifies client, reader
    ensures client.delivered <= Undisturbed(o, s, old(reader.input), reader.breaks)
    ensures AlwaysWorks(client.works) && NeverGone(client.gone) ==>
      client.delivered == Undisturbed(o, s, old(reader.input), reader.breaks)
  {
    hide *;
    ghost var input, c := reader.input, CourseOf(o, s, reader.input);
    var _, ending, _, out := Relay(client, reader, o, s);
    assert [] + out == out;
    ghost var finished := ending.Finished? && !client.seenGone;
    ghost var n: nat := if finished then client.attempts - |Trailer(o, c)| else 0;
    StickyAnywhere(client.works, n, |Trailer(o, c)|);
    DeliveredIsPrefix(o, s, input, reader.breaks, client.works, n, out, finished);
    UndisturbedIs(o, s, input, reader.breaks);
    assert c.chunks + [] == c.chunks;
  }

  lemma UndisturbedIs<S>(o: Options<S>, s: S, input: Bytes, breaks: bool)
    ensures
      var c := CourseOf(o, s, input);
      Undisturbed(o, s, input, breaks) == c.chunks + (if breaks && !c.done then [] else Trailer(o, c))
  {
  }

  // ----- the same dialect --------------------------------------------------

  /** The frames up to the first [DONE], and the bytes after it. */
  function UpToDone(input: Bytes): (r: (seq<Cut>, Bytes))
    decreases |input|
  {
    CutIsFair([], input);
    var c := NextCut([], input);
    if c.None? then ([], [])
    else if IsDone(FrameOf(c.value)) then ([c.value], c.value.rest)
    else
      var (cuts, rest) := UpToDone(c.value.rest);
      ([c.value] + cuts, rest)
  }

  predicate Stripped<S>(o: Options<S>, c: Cut) {
    o.strip && o.isUsage(Payload(FrameOf(c)))
  }

  function Unstripped<S>(o: Options<S>, cuts: seq<Cut>): seq<Cut> {
    if cuts == [] then []
    else (if Stripped(o, cuts[0]) then [] else [cuts[0]]) + Unstripped(o, cuts[1..])
  }

  function Flat(chunks: seq<Bytes>): Bytes {
    if chunks == [] then [] else chunks[0] + Flat(chunks[1..])
  }

  lemma {:induction false} FlatAppend(a: seq<Bytes>, b: seq<Bytes>)
    ensures Flat(a + b) == Flat(a) + Flat(b)
  {
    hide Flat;
    FlatOfNone();
    if a == [] {
      assert a + b == b && [] + Flat(b) == Flat(b);
    } else {
      FlatAppend(a[1..], b);
      FlatFirst(a);
      FlatFirst(a + b);
      assert (a + b)[0] == a[0] && (a + b)[1..] == a[1..] + b;
      assert a[0] + (Flat(a[1..]) + Flat(b)) == a[0] + Flat(a[1..]) + Flat(b);
    }
  }

  lemma FlatOfNone()
    ensures Flat([]) == []
  {
  }

  lemma FlatFirst(a: seq<Bytes>)
    requires a != []
    ensures Flat(a) == a[0] + Flat(a[1..])
  {
  }

  lemma UnstrippedCons<S>(o: Options<S>, c: Cut, cuts: seq<Cut>)
    ensures Unstripped(o, [c] + cuts) == (if Stripped(o, c) then [] else [c]) + Unstripped(o, cuts)
    ensures Relayed([c] + cuts) == HandedOn(c.raw) + Relayed(cuts)
    ensures Relayed([c]) == HandedOn(c.raw) && [] + cuts == cuts
  {
    assert ([c] + cuts)[1..] == cuts;
    assert [c][1..] == [];
  }

  /** In the same dialect the client receives the bytes of every frame up to the
      [DONE], in order, but for the usage chunks that are stripped. */
  lemma {:induction false} SameDialectIsRelayed<S>(o: Options<S>, s: S, input: Bytes)
    requires o.translate.None?
    ensures Flat(CourseOf(o, s, input).chunks) == Relayed(Unstripped(o, UpToDone(input).0))
    decreases |input|
  {
    hide IsDone, FrameOf, NextCut, HandedOn, Rendered, Unstripped, Relayed, Flat, Stripped;
    CutIsFair([], input);
    var c := NextCut([], input);
    NothingRelayed(o);
    if c.Some? {
      var cut, none: seq<Cut> := c.value, [];
      var chunks := Rendered(o, s, FrameOf(cut)).chunks;
      RenderedRaw(o, s, cut);
      CourseUnfolds(o, s, input);
      if IsDone(FrameOf(cut)) {
        UnstrippedCons(o, cut, none);
        assert [cut] + none == [cut];
        assert chunks + [] == chunks;
      } else {
        var rest := UpToDone(cut.rest).0;
        FlatAppend(chunks, CourseOf(o, s, cut.rest).chunks);
        SameDialectIsRelayed(o, s, cut.rest);
        UnstrippedCons(o, cut, rest);
        UnstrippedCons(o, cut, Unstripped(o, rest));
      }
    }
  }

  lemma NothingRelayed<S>(o: Options<S>)
    ensures Unstripped(o, []) == [] && Relayed([]) == [] && Flat([]) == []
  {
  }

  lemma RenderedRaw<S>(o: Options<S>, s: S, c: Cut)
    requires o.translate.None?
    ensures
      var r := Rendered(o, s, FrameOf(c));
      r.state == s && Flat(r.chunks) == if Stripped(o, c) then [] else HandedOn(c.raw)
  {
    var whole: seq<Bytes> := [FrameOf(c).raw];
    assert whole[1..] == [];
    assert Flat(whole) == whole[0];
  }

  lemma {:induction false} UpToDoneIsTheStart(input: Bytes)
    ensures UpToDone(input).0 <= Cuts(input)
    decreases |input|
  {
    hide IsDone, FrameOf, NextCut;
    CutIsFair([], input);
    var c := NextCut([], input);
    if c.Some? && !IsDone(FrameOf(c.value)) {
      UpToDoneIsTheStart(c.value.rest);
    }
  }

  lemma UpToDoneUnfolds(input: Bytes)
    ensures NextCut([], input).None? ==> UpToDone(input) == ([], [])
    ensures NextCut([], input).Some? ==>
      var c := NextCut([], input).value;
      && |c.rest| < |input|
      && UpToDone(input)
           == if IsDone(FrameOf(c)) then ([c], c.rest) else ([c] + UpToDone(c.rest).0, UpToDone(c.rest).1)
  {
    hide IsDone, FrameOf, NextCut;
    CutIsFair([], input);
  }

  lemma {:induction false} IntactUpToDone(input: Bytes)
    requires forall c :: c in UpToDone(input).0 ==> Intact(c)
    ensures Relayed(UpToDone(input).0) + UpToDone(input).1 == input
    decreases |input|
  {
    hide *;
    UpToDoneUnfolds(input);
    NothingRelayed(Nobody());
    var c := NextCut([], input);
    if c.None? {
      assert [] + input == input;
      CutIsFair([], input);
    } else {
      var cut := c.value;
      IntactCut(input, cut);
      if IsDone(FrameOf(cut)) {
        UnstrippedCons(Nobody(), cut, []);
        assert [cut] + [] == [cut];
      } else {
        var (cuts, tail) := UpToDone(cut.rest);
        assert forall x :: x in cuts ==> x in [cut] + cuts;
        IntactUpToDone(cut.rest);
        UnstrippedCons(Nobody(), cut, cuts);
        assert HandedOn(cut.raw) + Relayed(cuts) + tail == HandedOn(cut.raw) + (Relayed(cuts) + tail);
      }
    }
  }

  lemma IntactCut(input: Bytes, c: Cut)
    requires Intact(c) && NextCut([], input) == Some(c)
    ensures HandedOn(c.raw) + c.rest == input
  {
    hide NextCut;
    CutIsFair([], input);
    assert [] + input == input;
  }

  function Nobody(): Options<bool> {
    Options(None, None, (_: Bytes) => false, false, false, false)
  }

  lemma {:induction false} NothingStripped<S>(o: Options<S>, cuts: seq<Cut>)
    requires forall c :: c in cuts ==> !Stripped(o, c)
    ensures Unstripped(o, cuts) == cuts
  {
    if cuts != [] {
      NothingStripped(o, cuts[1..]);
    }
  }

  /** So where nothing is stripped and every frame is intact, what is relayed is the
      stream itself up to the end of its [DONE]. */
  lemma SameDialectByteForByte<S>(o: Options<S>, s: S, input: Bytes)
    requires o.translate.None?
    requires forall c :: c in UpToDone(input).0 ==> Intact(c) && !Stripped(o, c)
    ensures Flat(CourseOf(o, s, input).chunks) + UpToDone(input).1 == input
  {
    SameDialectIsRelayed(o, s, input);
    NothingStripped(o, UpToDone(input).0);
    IntactUpToDone(input);
  }

  /** Nothing is stripped of a stream whose client asked for its usage: it receives
      every frame up to the [DONE]. */
  lemma WithoutStripping<S>(o: Options<S>, s: S, input: Bytes)
    requires o.translate.None? && !o.strip
    ensures Flat(CourseOf(o, s, input).chunks) == Relayed(UpToDone(input).0)
  {
    hide UpToDone, Relayed, CourseOf, Flat;
    SameDialectIsRelayed(o, s, input);
    NothingStripped(o, UpToDone(input).0);
  }

  // ----- what is observed and counted --------------------------------------

  function DataOf(f: Frame): Bytes {
    match f.data
    case None => []
    case Some(data) => data
  }

  /** The data of the frames that are usage chunks. */
  function Usages(isUsage: Bytes -> bool, cuts: seq<Cut>): seq<Bytes> {
    if cuts == [] then []
    else
      var data := DataOf(FrameOf(cuts[0]));
      (if isUsage(data) then [data] else []) + Usages(isUsage, cuts[1..])
  }

  function OversizedCount(cuts: seq<Cut>): nat {
    if cuts == [] then 0 else (if cuts[0].oversized then 1 else 0) + OversizedCount(cuts[1..])
  }

  lemma UsagesFirst(isUsage: Bytes -> bool, c: Cut, cuts: seq<Cut>)
    ensures Usages(isUsage, []) == [] && OversizedCount([]) == 0
    ensures
      var data := DataOf(FrameOf(c));
      Usages(isUsage, [c] + cuts) == (if isUsage(data) then [data] else []) + Usages(isUsage, cuts)
    ensures OversizedCount([c] + cuts) == (if c.oversized then 1 else 0) + OversizedCount(cuts)
  {
    hide FrameOf;
    assert ([c] + cuts)[1..] == cuts;
  }

  /** In the same dialect every usage chunk up to the [DONE] is observed, in order,
      whether it is stripped or not; and the faults are the oversized frames. */
  lemma {:induction false} ObservedExactly<S>(o: Options<S>, s: S, input: Bytes)
    requires o.translate.None?
    ensures CourseOf(o, s, input).observed == Usages(o.isUsage, UpToDone(input).0)
    ensures CourseOf(o, s, input).faults == OversizedCount(UpToDone(input).0)
    decreases |input|
  {
    hide *;
    UpToDoneUnfolds(input);
    var c := NextCut([], input);
    if c.None? {
      CourseEnds(o, s, input);
      UsagesFirst(o.isUsage, Cut([], false, []), []);
    } else {
      var cut := c.value;
      var f, rest := FrameOf(cut), if IsDone(FrameOf(cut)) then [] else UpToDone(cut.rest).0;
      CourseUnfolds(o, s, input);
      RenderedObserves(o, s, cut);
      UsagesFirst(o.isUsage, cut, rest);
      OverIsEmpty(s);
      assert [cut] + [] == [cut];
      if !IsDone(f) {
        ObservedExactly(o, s, cut.rest);
      }
    }
  }

  lemma CourseEnds<S>(o: Options<S>, s: S, input: Bytes)
    requires NextCut([], input).None?
    ensures CourseOf(o, s, input) == Over(s, false)
    ensures Over(s, false).observed == [] && Over(s, false).faults == 0
  {
  }

  lemma OverIsEmpty<S>(s: S)
    ensures forall done :: Over(s, done).observed == [] && Over(s, done).faults == 0
  {
  }

  lemma RenderedObserves<S>(o: Options<S>, s: S, c: Cut)
    requires o.translate.None?
    ensures
      var r, data := Rendered(o, s, FrameOf(c)), DataOf(FrameOf(c));
      && r.state == s && r.observed == (if o.isUsage(data) then [data] else [])
      && r.faults == if c.oversized then 1 else 0
  {
    hide HandedOn, LastEvent, Joined, Lines;
  }

  // ----- a translated stream -----------------------------------------------

  lemma OverwrittenNeedsRoom(raw: Bytes)
    requires Spoiled(raw)
    ensures Overwritten(Lines(raw), 0).value + 7 <= |raw|
  {
    RoomAfter(raw, 0);
  }

  lemma {:induction false} RoomAfter(s: Bytes, start: nat)
    requires Overwritten(Lines(s), start).Some?
    ensures Overwritten(Lines(s), start).value + 7 <= start + |s|
    decreases |s|
  {
    hide IsData, Lines, SomeData;
    assert s[0..] == s;
    NextLine(s, Lines(s), 0);
    var line := Lines(s)[0];
    if |line| == |s| {
      NoLines();
    } else if IsData(line) {
      RoomForData(s[|line| + 1..]);
    } else {
      RoomAfter(s[|line| + 1..], start + |line| + 1);
    }
  }

  lemma RoomForData(s: Bytes)
    requires SomeData(Lines(s))
    ensures |s| >= 5
  {
    hide Lines, IsData;
    var line :| line in Lines(s) && IsData(line);
    DataIsLong(line);
    LinesLength(s);
    LineFits(Lines(s), line);
  }

  lemma DataIsLong(line: Bytes)
    requires IsData(line)
    ensures |line| >= 5
  {
  }

  lemma {:induction false} LineFits(lines: seq<Bytes>, line: Bytes)
    requires line in lines
    ensures |line| + 1 <= TotalLength(lines)
  {
    if lines[0] != line {
      LineFits(lines[1..], line);
    }
  }

  /** Bytes that read as the end marker come from no other frame. */
  lemma RawDoneIsDone(c: Cut)
    requires FrameOf(c).raw == DONE_EVENT
    ensures IsDone(FrameOf(c))
  {
    hide Lines, Joined, LastEvent, Overwritten;
    HandedOnIs(c.raw);
    if Spoiled(c.raw) {
      OverwrittenNeedsRoom(c.raw);
      assert false;
    }
    assert DONE_EVENT == Encode(DONE);
    EncodedData(DONE);
    assert TrimSpace(DONE) == DONE;
  }

  ghost predicate NeverSaysDone<S(!new)>(o: Options<S>) {
    && (o.translate.Some? ==>
          forall s, e, d :: o.translate.value(s, e, d).1.Some? ==> DONE !in o.translate.value(s, e, d).1.value)
    && (o.trailing.Some? ==> forall s :: DONE !in o.trailing.value(s))
  }

  lemma EncodeGivesBack(payload: Bytes)
    ensures |Encode(payload)| == |payload| + 8 && Encode(payload)[6..|payload| + 6] == payload
  {
  }

  lemma EncodedIsNotDone(chunks: seq<Bytes>)
    requires DONE !in chunks
    ensures DONE_EVENT !in EncodeEach(chunks)
  {
    var e := EncodeEach(chunks);
    forall i | 0 <= i < |e|
      ensures e[i] != DONE_EVENT
    {
      EncodeGivesBack(chunks[i]);
      EncodeGivesBack(DONE);
      assert DONE_EVENT == Encode(DONE);
    }
  }

  lemma RenderedIsNotDone<S(!new)>(o: Options<S>, s: S, c: Cut)
    requires o.translate.Some? && NeverSaysDone(o) && !IsDone(FrameOf(c))
    ensures DONE_EVENT !in Rendered(o, s, FrameOf(c)).chunks
  {
    hide FrameOf, IsDone;
    var f := FrameOf(c);
    if f.raw == DONE_EVENT {
      RawDoneIsDone(c);
    }
    var chunks := o.translate.value(s, f.event, Payload(f)).1;
    if chunks.Some? {
      EncodedIsNotDone(chunks.value);
    }
  }

  lemma {:induction false} CourseWithoutDone<S(!new)>(o: Options<S>, s: S, input: Bytes)
    requires o.translate.Some? && NeverSaysDone(o) && !CourseOf(o, s, input).done
    ensures DONE_EVENT !in CourseOf(o, s, input).chunks
    decreases |input|
  {
    hide IsDone, FrameOf, NextCut, Rendered, NeverSaysDone;
    CutIsFair([], input);
    var c := NextCut([], input);
    if c.Some? {
      CourseUnfolds(o, s, input);
      RenderedIsNotDone(o, s, c.value);
      CourseWithoutDone(o, Rendered(o, s, FrameOf(c.value)).state, c.value.rest);
    }
  }

  /** A translated stream whose provider sends no [DONE] ends in exactly one. */
  lemma TranslatedEndsInOneDone<S(!new)>(o: Options<S>, s: S, input: Bytes)
    requires o.translate.Some? && NeverSaysDone(o) && !CourseOf(o, s, input).done
    ensures
      var all := Undisturbed(o, s, input, false);
      && all != [] && all[|all| - 1] == DONE_EVENT
      && DONE_EVENT !in all[..|all| - 1]
  {
    hide CourseOf;
    var c := CourseOf(o, s, input);
    CourseWithoutDone(o, s, input);
    if o.trailing.Some? {
      EncodedIsNotDone(o.trailing.value(c.state));
    }
    var all := Undisturbed(o, s, input, false);
    assert all == c.chunks + TrailingOf(o, c.state) + [DONE_EVENT];
    assert all[..|all| - 1] == c.chunks + TrailingOf(o, c.state);
  }
}
