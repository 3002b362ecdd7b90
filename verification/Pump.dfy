/** Relaying an event stream to a client that may leave at any moment. */
module Pump {
  import opened Basics
  import opened Frames
  import FrameLaws

  const DONE_EVENT: Bytes := "data: [DONE]\n\n"

  /** `translate` turns the event and data of a frame into chunks and a new state,
      or fails; without it frames pass as they are. `isUsage` recognises the chunk
      that the gateway asked for on the client's behalf. `slot` is whether a drain
      slot can be had. */
  datatype Options<!S> = Options(
    translate: Option<(S, Bytes, Bytes) -> (S, Option<seq<Bytes>>)>,
    trailing: Option<S -> seq<Bytes>>,
    isUsage: Bytes -> bool,
    strip: bool,
    drain: bool,
    slot: bool)

  function EncodeEach(chunks: seq<Bytes>): (r: seq<Bytes>)
    ensures |r| == |chunks| && forall i :: 0 <= i < |chunks| ==> r[i] == FrameLaws.Encode(chunks[i])
  {
    if chunks == [] then [] else [FrameLaws.Encode(chunks[0])] + EncodeEach(chunks[1..])
  }

  /** What one frame becomes. */
  datatype Rendering<S> = Rendering(state: S, chunks: seq<Bytes>, observed: seq<Bytes>, faults: nat)

  function Payload(f: Frame): Bytes {
    if f.data.None? then [] else f.data.value
  }

  function Rendered<S>(o: Options<S>, s: S, f: Frame): Rendering<S> {
    var cut := if f.oversized then 1 else 0;
    if o.translate.None? then
      if o.isUsage(Payload(f)) then Rendering(s, if o.strip then [] else [f.raw], [Payload(f)], cut)
      else Rendering(s, [f.raw], [], cut)
    else if TrimSpace(Payload(f)) == [] then Rendering(s, [], [], cut)
    else
      var (s', chunks) := o.translate.value(s, f.event, Payload(f));
      if chunks.None? then Rendering(s', [f.raw], [], cut + 1)
      else Rendering(s', EncodeEach(chunks.value), [], cut)
  }

  /** What the stream has for a client that stays: everything up to its [DONE]. */
  datatype Course<S> = Course(state: S, chunks: seq<Bytes>, observed: seq<Bytes>, faults: nat, done: bool)

  function CourseOf<S>(o: Options<S>, s: S, input: Bytes): Course<S>
    decreases |input|
  {
    FrameLaws.CutIsFair([], input);
    var c := NextCut([], input);
    if c.None? then Course(s, [], [], 0, false)
    else
      var f := FrameOf(c.value);
      var r := Rendered(o, s, f);
      if IsDone(f) then Course(r.state, r.chunks, r.observed, r.faults, true)
      else
        var rest := CourseOf(o, r.state, c.value.rest);
        Course(rest.state, r.chunks + rest.chunks, r.observed + rest.observed, r.faults + rest.faults, rest.done)
  }

  /** What the first `n` frames have for a client. */
  function FirstChunks<S>(o: Options<S>, s: S, input: Bytes, n: nat): seq<Bytes>
    decreases n
  {
    var c := NextCut([], input);
    if n == 0 || c.None? then []
    else
      var r := Rendered(o, s, FrameOf(c.value));
      r.chunks + if IsDone(FrameOf(c.value)) then [] else FirstChunks(o, r.state, c.value.rest, n - 1)
  }

  function TrailingOf<S>(o: Options<S>, s: S): seq<Bytes> {
    if o.trailing.None? then [] else EncodeEach(o.trailing.value(s))
  }

  function Trailer<S>(o: Options<S>, c: Course<S>): seq<Bytes> {
    TrailingOf(o, c.state) + (if o.translate.Some? && !c.done then [DONE_EVENT] else [])
  }

  /** All that an undisturbed client receives. */
  function Undisturbed<S>(o: Options<S>, s: S, input: Bytes, breaks: bool): seq<Bytes> {
    var c := CourseOf(o, s, input);
    c.chunks + (if breaks && !c.done then [] else Trailer(o, c))
  }

  // ----- the client --------------------------------------------------------

  ghost predicate AlwaysWorks(works: nat -> bool) {
    forall n :: works(n)
  }

  ghost predicate NeverGone(gone: nat -> bool) {
    forall n :: !gone(n)
  }

  /** The client's side of the connection: whether the n-th write goes through and
      whether it is gone when looked at for the n-th time. */
  class Client {
    const works: nat -> bool
    const gone: nat -> bool
    var attempts: nat
    var looks: nat
    var delivered: seq<Bytes>
    /** Once it is seen to be gone nothing may be written to it. */
    ghost var seenGone: bool

    constructor (works: nat -> bool, gone: nat -> bool)
      ensures this.works == works && this.gone == gone
      ensures attempts == looks == 0 && delivered == [] && !seenGone
    {
      this.works, this.gone := works, gone;
      attempts, looks, delivered, seenGone := 0, 0, [], false;
    }

    method Write(chunk: Bytes) returns (ok: bool)
      requires !seenGone
      modifies this`attempts, this`delivered
      ensures ok == works(old(attempts)) && attempts == old(attempts) + 1
      ensures delivered == old(delivered) + (if ok then [chunk] else [])
      ensures AlwaysWorks(works) ==> ok
    {
      ok := works(attempts);
      attempts := attempts + 1;
      if ok {
        delivered := delivered + [chunk];
      }
    }

    method Gone() returns (r: bool)
      modifies this`looks
      ensures r == gone(old(looks)) && looks == old(looks) + 1
      ensures NeverGone(gone) ==> !r
    {
      r := gone(looks);
      looks := looks + 1;
    }
  }

  // ----- the relay ---------------------------------------------------------

  class Result {
    var chunks: nat
    var clientDisconnected: bool
    var drained: bool
    var faults: nat
    var sawDone: bool
    var observed: seq<Bytes>

    constructor ()
      ensures chunks == 0 && !clientDisconnected && !drained && faults == 0 && !sawDone && observed == []
    {
      chunks, clientDisconnected, drained, faults, sawDone, observed := 0, false, false, 0, false, [];
    }
  }

  datatype Ending = Finished | Cancelled | UpstreamBroke

  /** Some writes in a row that went through. */
  ghost predicate Worked(works: nat -> bool, n: nat, count: nat) {
    forall i :: n <= i < n + count ==> works(i)
  }

  /** A client is seen to be gone exactly if a write from `a0` up to `a` failed, or a look
      from `l0` up to `l` did not find it. */
  ghost predicate Watched(works: nat -> bool, gone: nat -> bool, seenGone: bool, a0: nat, a: nat, l0: nat, l: nat) {
    && a0 <= a && l0 <= l
    && (seenGone <==> (exists i :: a0 <= i < a && !works(i)) || (exists i :: l0 <= i < l && gone(i)))
  }

  lemma WatchedLook(works: nat -> bool, gone: nat -> bool, a0: nat, a: nat, l0: nat, l: nat)
    requires Watched(works, gone, false, a0, a, l0, l)
    ensures Watched(works, gone, gone(l), a0, a, l0, l + 1)
  {
  }

  lemma WatchedWrites(works: nat -> bool, gone: nat -> bool, a0: nat, a: nat, l0: nat, l: nat,
                      count: nat, stillWriting: bool)
    requires Watched(works, gone, false, a0, a, l0, l) && Worked(works, a, count)
    requires !stillWriting ==> !works(a + count)
    ensures Watched(works, gone, !stillWriting, a0, if stillWriting then a + count else a + count + 1, l0, l)
  {
  }

  lemma WatchedStarts(works: nat -> bool, gone: nat -> bool, a: nat, l: nat)
    ensures Watched(works, gone, false, a, a, l, l)
  {
  }

  /** The chunks of a frame, written until the client is found to be gone. */
  method WriteChunks(client: Client, result: Result, chunks: seq<Bytes>, writing: bool, drain: bool)
      returns (stillWriting: bool, cancelled: bool, ghost sent: nat)
    requires writing <==> !client.seenGone
    modifies client, result`chunks, result`clientDisconnected
    ensures stillWriting <==> !client.seenGone
    ensures sent <= |chunks| && client.delivered == old(client.delivered) + chunks[..sent]
    ensures stillWriting ==> writing && sent == |chunks| && result.clientDisconnected == old(result.clientDisconnected)
    ensures !writing ==> sent == 0 && client.attempts == old(client.attempts)
    ensures writing && !stillWriting ==> result.clientDisconnected
    ensures AlwaysWorks(client.works) ==> stillWriting == writing
    ensures cancelled <==> writing && !stillWriting && !drain
    ensures !cancelled ==> result.chunks == old(result.chunks) + |chunks|
    ensures old(result.clientDisconnected) ==> result.clientDisconnected
    ensures writing ==> Worked(client.works, old(client.attempts), sent)
    ensures stillWriting ==> client.attempts == old(client.attempts) + |chunks|
    ensures writing && !stillWriting ==>
      && sent < |chunks| && !client.works(old(client.attempts) + sent)
      && client.attempts == old(client.attempts) + sent + 1
    ensures client.looks == old(client.looks)
  {
    stillWriting, cancelled, sent := writing, false, 0;
    for i := 0 to |chunks|
      invariant writing ==> Worked(client.works, old(client.attempts), sent)
      invariant stillWriting ==> client.attempts == old(client.attempts) + i
      invariant writing && !stillWriting ==>
        && sent < i && !client.works(old(client.attempts) + sent)
        && client.attempts == old(client.attempts) + sent + 1
      invariant client.looks == old(client.looks)
      invariant stillWriting <==> !client.seenGone
      invariant sent <= i && client.delivered == old(client.delivered) + chunks[..sent]
      invariant stillWriting ==> writing && sent == i && result.clientDisconnected == old(result.clientDisconnected)
      invariant !writing ==> sent == 0 && client.attempts == old(client.attempts)
      invariant writing && !stillWriting ==> result.clientDisconnected && drain
      invariant AlwaysWorks(client.works) ==> stillWriting == writing
      invariant result.chunks == old(result.chunks) + i
      invariant old(result.clientDisconnected) ==> result.clientDisconnected
    {
      result.chunks := result.chunks + 1;
      if stillWriting {
        var ok := client.Write(chunks[i]);
        if ok {
          sent := sent + 1;
          assert chunks[..i + 1] == chunks[..i] + [chunks[i]];
        } else {
          result.clientDisconnected := true;
          stillWriting := false;
          client.seenGone := true;
          if !drain {
            cancelled := true;
            return;
          }
        }
      }
    }
    assert chunks[..|chunks|] == chunks;
  }

  /** What arrives of some chunks whose writes are not checked. */
  function Kept(works: nat -> bool, n: nat, chunks: seq<Bytes>): seq<Bytes>
    decreases |chunks|
  {
    if chunks == [] then []
    else (if works(n) then [chunks[0]] else []) + Kept(works, n + 1, chunks[1..])
  }

  lemma NothingKept(works: nat -> bool, n: nat)
    ensures Kept(works, n, []) == []
  {
  }

  lemma FirstKept(works: nat -> bool, n: nat, chunks: seq<Bytes>)
    requires chunks != []
    ensures Kept(works, n, chunks) == (if works(n) then [chunks[0]] else []) + Kept(works, n + 1, chunks[1..])
  {
  }

  lemma {:induction false} KeptSnoc(works: nat -> bool, n: nat, chunks: seq<Bytes>, chunk: Bytes)
    ensures Kept(works, n, chunks + [chunk]) == Kept(works, n, chunks) + (if works(n + |chunks|) then [chunk] else [])
    decreases |chunks|
  {
    hide *;
    var all := chunks + [chunk];
    FirstKept(works, n, all);
    if chunks == [] {
      NothingKept(works, n);
      NothingKept(works, n + 1);
      assert all == [chunk] && all[1..] == [];
    } else {
      FirstKept(works, n, chunks);
      KeptSnoc(works, n + 1, chunks[1..], chunk);
      assert all[0] == chunks[0] && all[1..] == chunks[1..] + [chunk];
    }
  }

  method WriteTrailers<S>(client: Client, result: Result, o: Options<S>, s: S)
    requires !client.seenGone
    modifies client`attempts, client`delivered, result`chunks, result`sawDone
    ensures
      var all := TrailingOf(o, s) + (if o.translate.Some? && !old(result.sawDone) then [DONE_EVENT] else []);
      && client.delivered == old(client.delivered) + Kept(client.works, old(client.attempts), all)
      && client.attempts == old(client.attempts) + |all|
    ensures result.chunks == old(result.chunks) + |TrailingOf(o, s)|
    ensures result.sawDone == (old(result.sawDone) || o.translate.Some?)
  {
    hide TrailingOf, Kept;
    var all := TrailingOf(o, s);
    NothingKept(client.works, client.attempts);
    for i := 0 to |all|
      invariant client.delivered == old(client.delivered) + Kept(client.works, old(client.attempts), all[..i])
      invariant client.attempts == old(client.attempts) + i && result.chunks == old(result.chunks) + i
      invariant result.sawDone == old(result.sawDone)
    {
      result.chunks := result.chunks + 1;
      var _ := client.Write(all[i]);
      KeptSnoc(client.works, old(client.attempts), all[..i], all[i]);
      assert all[..i + 1] == all[..i] + [all[i]];
    }
    assert all[..|all|] == all;
    if o.translate.Some? && !result.sawDone {
      var _ := client.Write(DONE_EVENT);
      KeptSnoc(client.works, old(client.attempts), all, DONE_EVENT);
      result.sawDone := true;
    } else {
      assert all + [] == all;
    }
  }

  /** The course `c` is what has passed and then what is still to come. */
  ghost predicate Ahead<S>(c: Course<S>, rest: Course<S>, passed: seq<Bytes>, observed: seq<Bytes>, faults: nat) {
    && c.chunks == passed + rest.chunks && c.observed == observed + rest.observed
    && c.faults == faults + rest.faults && c.state == rest.state && c.done == rest.done
  }

  function Over<S>(s: S, done: bool): Course<S> {
    Course(s, [], [], 0, done)
  }

  /** What was written, `out`, of the chunks that have passed: all of them, as long
      as the client is there. */
  ghost predicate Wrote(passed: seq<Bytes>, out: seq<Bytes>, writing: bool) {
    out <= passed && (writing ==> out == passed)
  }

  lemma WroteMore(passed: seq<Bytes>, out: seq<Bytes>, writing: bool, chunks: seq<Bytes>, n: nat, stillWriting: bool)
    requires Wrote(passed, out, writing) && n <= |chunks|
    requires (stillWriting ==> writing && n == |chunks|) && (!writing ==> n == 0)
    ensures Wrote(passed + chunks, out + chunks[..n], stillWriting)
  {
  }

  lemma WroteLess(passed: seq<Bytes>, out: seq<Bytes>, writing: bool, stillWriting: bool)
    requires Wrote(passed, out, writing) && (stillWriting ==> writing)
    ensures Wrote(passed, out, stillWriting)
  {
  }

  lemma NothingWrote()
    ensures Wrote([], [], true)
  {
  }

  lemma WroteAll(passed: seq<Bytes>, out: seq<Bytes>, writing: bool)
    requires Wrote(passed, out, writing)
    ensures out <= passed && (writing ==> out == passed)
  {
  }

  lemma AllWrote(passed: seq<Bytes>, out: seq<Bytes>)
    requires Wrote(passed, out, true)
    ensures out == passed
  {
  }

  lemma WrotePrefix<S>(c: Course<S>, rest: Course<S>, passed: seq<Bytes>, observed: seq<Bytes>, faults: nat,
                       out: seq<Bytes>, writing: bool)
    requires Ahead(c, rest, passed, observed, faults) && Wrote(passed, out, writing)
    ensures out <= c.chunks
  {
  }

  lemma TrailerIs<S>(o: Options<S>, c: Course<S>)
    ensures Trailer(o, c) == TrailingOf(o, c.state) + (if o.translate.Some? && !c.done then [DONE_EVENT] else [])
  {
  }

  lemma AheadAtFirst<S>(c: Course<S>)
    ensures Ahead(c, c, [], [], 0)
  {
  }

  lemma AheadOfFrame<S>(o: Options<S>, s: S, input: Bytes, c: Course<S>,
                        passed: seq<Bytes>, observed: seq<Bytes>, faults: nat)
    requires Ahead(c, CourseOf(o, s, input), passed, observed, faults)
    requires NextCut([], input).Some?
    ensures
      var cut := NextCut([], input).value;
      var r := Rendered(o, s, FrameOf(cut));
      && Ahead(c, if IsDone(FrameOf(cut)) then Over(r.state, true) else CourseOf(o, r.state, cut.rest),
           passed + r.chunks, observed + r.observed, faults + r.faults)
      && (IsDone(FrameOf(cut)) ==> c.done)
  {
    hide Rendered, IsDone, FrameOf, NextCut, CourseOf;
    CourseUnfolds(o, s, input);
  }

  lemma CourseUnfolds<S>(o: Options<S>, s: S, input: Bytes)
    requires NextCut([], input).Some?
    ensures
      var cut := NextCut([], input).value;
      var r := Rendered(o, s, FrameOf(cut));
      var rest := if IsDone(FrameOf(cut)) then Over(r.state, true) else CourseOf(o, r.state, cut.rest);
      CourseOf(o, s, input)
        == Course(rest.state, r.chunks + rest.chunks, r.observed + rest.observed, r.faults + rest.faults, rest.done)
  {
    hide Rendered, IsDone, FrameOf, NextCut;
    FrameLaws.CutIsFair([], input);
  }

  lemma AheadOfEnd<S>(o: Options<S>, s: S, input: Bytes, c: Course<S>,
                      passed: seq<Bytes>, observed: seq<Bytes>, faults: nat)
    requires Ahead(c, CourseOf(o, s, input), passed, observed, faults)
    requires NextCut([], input).None?
    ensures Ahead(c, Over(s, false), passed, observed, faults) && !c.done
  {
  }

  lemma AheadOfNothing<S>(c: Course<S>, s: S, done: bool, passed: seq<Bytes>, observed: seq<Bytes>, faults: nat)
    requires Ahead(c, Over(s, done), passed, observed, faults)
    ensures c == Course(s, passed, observed, faults, done)
  {
  }

  /** After `n` frames of a stream `passed` has passed, and the rest begins at `input`. */
  ghost predicate Pace<S>(o: Options<S>, s0: S, input0: Bytes, n: nat, passed: seq<Bytes>, s: S, input: Bytes) {
    forall k: nat :: FirstChunks(o, s0, input0, n + k) == passed + FirstChunks(o, s, input, k)
  }

  /** A client that is seen to be gone has what the frames before its last look had, and
      a part of the next frame only if it was there at that look. */
  ghost predicate InStep<S>(o: Options<S>, s0: S, input0: Bytes, gone: nat -> bool, seenGone: bool,
                            l0: nat, l: nat, out: seq<Bytes>)
  {
    seenGone ==>
      && l0 < l
      && var n := l - l0 - 1;
         && FirstChunks(o, s0, input0, n) <= out <= FirstChunks(o, s0, input0, n + 1)
         && (gone(l - 1) ==> out == FirstChunks(o, s0, input0, n))
  }

  lemma PaceStarts<S>(o: Options<S>, s: S, input: Bytes)
    ensures Pace(o, s, input, 0, [], s, input)
  {
    hide FirstChunks;
  }

  lemma PaceGoesOn<S>(o: Options<S>, s0: S, input0: Bytes, n: nat, passed: seq<Bytes>, s: S, input: Bytes)
    requires Pace(o, s0, input0, n, passed, s, input) && NextCut([], input).Some?
    ensures
      var cut := NextCut([], input).value;
      var r := Rendered(o, s, FrameOf(cut));
      && FirstChunks(o, s0, input0, n) == passed && FirstChunks(o, s0, input0, n + 1) == passed + r.chunks
      && (!IsDone(FrameOf(cut)) ==> Pace(o, s0, input0, n + 1, passed + r.chunks, r.state, cut.rest))
  {
    hide Rendered, IsDone, FrameOf, NextCut, FirstChunks, Pace;
    var cut := NextCut([], input).value;
    var r := Rendered(o, s, FrameOf(cut));
    PaceAt(o, s0, input0, n, passed, s, input, 0);
    PaceAt(o, s0, input0, n, passed, s, input, 1);
    NothingYet(o, s, input);
    NothingYet(o, r.state, cut.rest);
    FirstOnes(o, s, input, 0);
    assert passed + [] == passed && r.chunks + [] == r.chunks;
    if !IsDone(FrameOf(cut)) {
      forall k: nat
        ensures FirstChunks(o, s0, input0, n + 1 + k) == passed + r.chunks + FirstChunks(o, r.state, cut.rest, k)
      {
        PaceAt(o, s0, input0, n, passed, s, input, k + 1);
        FirstOnes(o, s, input, k);
      }
      PaceIs(o, s0, input0, n + 1, passed + r.chunks, r.state, cut.rest);
    }
  }

  lemma PaceAt<S>(o: Options<S>, s0: S, input0: Bytes, n: nat, passed: seq<Bytes>, s: S, input: Bytes, k: nat)
    requires Pace(o, s0, input0, n, passed, s, input)
    ensures FirstChunks(o, s0, input0, n + k) == passed + FirstChunks(o, s, input, k)
  {
    hide FirstChunks;
  }

  lemma PaceIs<S>(o: Options<S>, s0: S, input0: Bytes, n: nat, passed: seq<Bytes>, s: S, input: Bytes)
    requires forall k: nat :: FirstChunks(o, s0, input0, n + k) == passed + FirstChunks(o, s, input, k)
    ensures Pace(o, s0, input0, n, passed, s, input)
  {
    hide FirstChunks;
  }

  lemma FirstOnes<S>(o: Options<S>, s: S, input: Bytes, k: nat)
    requires NextCut([], input).Some?
    ensures
      var cut := NextCut([], input).value;
      var r := Rendered(o, s, FrameOf(cut));
      FirstChunks(o, s, input, k + 1)
        == r.chunks + if IsDone(FrameOf(cut)) then [] else FirstChunks(o, r.state, cut.rest, k)
  {
    hide NextCut, FrameOf, Rendered, IsDone;
  }

  /** The client was gone when it was looked for. */
  lemma InStepLook<S>(o: Options<S>, s0: S, input0: Bytes, passed: seq<Bytes>, s: S, input: Bytes,
                      gone: nat -> bool, l0: nat, l: nat)
    requires l0 <= l && Pace(o, s0, input0, l - l0, passed, s, input)
    ensures InStep(o, s0, input0, gone, gone(l), l0, l + 1, passed)
  {
    hide FirstChunks;
    assert FirstChunks(o, s0, input0, l - l0 + 0) == passed + FirstChunks(o, s, input, 0);
    assert FirstChunks(o, s0, input0, l - l0 + 1) == passed + FirstChunks(o, s, input, 1);
    NothingYet(o, s, input);
  }

  lemma NothingYet<S>(o: Options<S>, s: S, input: Bytes)
    ensures FirstChunks(o, s, input, 0) == []
  {
  }

  /** It was there, but a write of the next frame may have failed. */
  lemma InStepWrite<S>(o: Options<S>, s0: S, input0: Bytes, passed: seq<Bytes>, s: S, input: Bytes,
                       gone: nat -> bool, l0: nat, l: nat, sent: nat, seenGone: bool)
    requires l0 <= l && Pace(o, s0, input0, l - l0, passed, s, input) && !gone(l) && NextCut([], input).Some?
    requires sent <= |Rendered(o, s, FrameOf(NextCut([], input).value)).chunks|
    ensures
      var r := Rendered(o, s, FrameOf(NextCut([], input).value));
      InStep(o, s0, input0, gone, seenGone, l0, l + 1, passed + r.chunks[..sent])
  {
    hide FirstChunks, Rendered, FrameOf, NextCut, IsDone, Pace;
    PaceGoesOn(o, s0, input0, l - l0, passed, s, input);
  }

  lemma StillThere<S>(o: Options<S>, s0: S, input0: Bytes, gone: nat -> bool, l0: nat, l: nat, out: seq<Bytes>)
    ensures InStep(o, s0, input0, gone, false, l0, l, out)
  {
  }

  /** Looks whether the client is still there, between two frames. */
  method LookForClient<S>(client: Client, result: Result, o: Options<S>, writing: bool)
      returns (stillWriting: bool, cancelled: bool)
    requires writing <==> !client.seenGone
    requires result.clientDisconnected <==> client.seenGone
    modifies client`looks, client`seenGone, result`clientDisconnected, result`drained
    ensures stillWriting <==> !client.seenGone
    ensures result.clientDisconnected <==> client.seenGone
    ensures stillWriting ==> writing && result.drained == old(result.drained)
    ensures writing && NeverGone(client.gone) ==> stillWriting
    ensures writing ==> (stillWriting <==> !client.gone(old(client.looks)))
    ensures client.looks == old(client.looks) + if writing then 1 else 0
    ensures cancelled <==> writing && !stillWriting && !(o.drain && o.slot)
    ensures result.drained <==> old(result.drained) || (writing && !stillWriting && o.drain && o.slot)
  {
    stillWriting, cancelled := writing, false;
    if writing {
      var gone := client.Gone();
      if gone {
        result.clientDisconnected := true;
        stillWriting := false;
        client.seenGone := true;
        if !o.drain || !o.slot {
          cancelled := true;
          return;
        }
        result.drained := true;
      }
    }
  }

  /** Counts one frame and writes what it becomes. */
  method PassFrame<S>(client: Client, result: Result, o: Options<S>, s: S, f: Frame, writing: bool)
      returns (s': S, stillWriting: bool, cancelled: bool, ghost sent: nat)
    requires writing <==> !client.seenGone
    requires result.clientDisconnected <==> client.seenGone
    modifies client, result`chunks, result`clientDisconnected, result`faults, result`observed, result`sawDone
    ensures
      var r := Rendered(o, s, f);
      && s' == r.state && result.faults == old(result.faults) + r.faults
      && result.observed == old(result.observed) + r.observed
      && sent <= |r.chunks| && client.delivered == old(client.delivered) + r.chunks[..sent]
      && (stillWriting ==> sent == |r.chunks|) && (!writing ==> sent == 0)
      && (!cancelled ==> result.chunks == old(result.chunks) + |r.chunks|)
    ensures result.sawDone == (old(result.sawDone) || IsDone(f))
    ensures stillWriting <==> !client.seenGone
    ensures result.clientDisconnected <==> client.seenGone
    ensures stillWriting ==> writing
    ensures writing && AlwaysWorks(client.works) ==> stillWriting
    ensures cancelled ==> !stillWriting && !o.drain
    ensures client.looks == old(client.looks)
    ensures writing ==> Worked(client.works, old(client.attempts), sent)
    ensures writing && stillWriting ==> client.attempts == old(client.attempts) + sent
    ensures writing && !stillWriting ==>
      !client.works(old(client.attempts) + sent) && client.attempts == old(client.attempts) + sent + 1
    ensures !writing ==> client.attempts == old(client.attempts)
  {
    hide Rendered, IsDone, AlwaysWorks, Worked;
    if IsDone(f) {
      result.sawDone := true;
    }
    var r := Rendered(o, s, f);
    s' := r.state;
    result.faults := result.faults + r.faults;
    result.observed := result.observed + r.observed;
    stillWriting, cancelled, sent := WriteChunks(client, result, r.chunks, writing, o.drain);
  }

  /** Whether the relay goes on after a frame. */
  datatype Turn = More | Stop | Cancel | Break

  ghost predicate Consistent<S>(client: Client, result: Result, o: Options<S>)
    reads client, result
  {
    && (result.clientDisconnected <==> client.seenGone)
    && (result.drained ==> client.seenGone && o.drain && o.slot)
    && (AlwaysWorks(client.works) && NeverGone(client.gone) ==> !client.seenGone)
  }

  ghost predicate Followed<S>(client: Client, o: Options<S>, s0: S, input0: Bytes, a0: nat, l0: nat, out: seq<Bytes>)
    reads client
  {
    && Watched(client.works, client.gone, client.seenGone, a0, client.attempts, l0, client.looks)
    && InStep(o, s0, input0, client.gone, client.seenGone, l0, client.looks, out)
  }

  ghost predicate OnPace<S>(client: Client, o: Options<S>, s0: S, input0: Bytes, l0: nat,
                            passed: seq<Bytes>, s: S, input: Bytes)
    reads client
  {
    l0 <= client.looks && Pace(o, s0, input0, client.looks - l0, passed, s, input)
  }

  ghost predicate Going<S>(client: Client, result: Result, c: Course<S>, rest: Course<S>,
                           passed: seq<Bytes>, out: seq<Bytes>)
    reads client, result
  {
    && Ahead(c, rest, passed, result.observed, result.faults)
    && result.chunks == |passed| && Wrote(passed, out, !client.seenGone)
  }

  /** What one frame did to the connection: `n` of its chunks were written. */
  ghost predicate Sent<S>(o: Options<S>, s: S, input: Bytes, works: nat -> bool, writing: bool, stillWriting: bool,
                          a: nat, a': nat, passed: seq<Bytes>, passed': seq<Bytes>, out: seq<Bytes>, out': seq<Bytes>,
                          s': S, input': Bytes, more: bool, n: nat)
  {
    if !writing then !stillWriting && a' == a && out' == out
    else
      var cut := NextCut([], input);
      if cut.None? then stillWriting && a' == a && passed' == passed && out' == out && !more
      else
        var r := Rendered(o, s, FrameOf(cut.value));
        && n <= |r.chunks| && Worked(works, a, n) && (stillWriting ==> n == |r.chunks| && a' == a + n)
        && (!stillWriting ==> !works(a + n) && a' == a + n + 1)
        && passed' == passed + r.chunks && out' == out + r.chunks[..n]
        && (more ==> s' == r.state && input' == cut.value.rest && !IsDone(FrameOf(cut.value)))
  }

  /** From one look to the next. */
  lemma TurnSeen<S>(o: Options<S>, s0: S, input0: Bytes, s: S, input: Bytes, works: nat -> bool, gone: nat -> bool,
                    stillWriting: bool, a0: nat, l0: nat, l: nat,
                    a: nat, a': nat, passed: seq<Bytes>, passed': seq<Bytes>, out': seq<Bytes>,
                    s': S, input': Bytes, more: bool, n: nat)
    requires Watched(works, gone, false, a0, a, l0, l)
    requires l0 <= l && Pace(o, s0, input0, l - l0, passed, s, input)
    requires Sent(o, s, input, works, !gone(l), stillWriting, a, a', passed, passed', passed, out', s', input', more, n)
    ensures Watched(works, gone, !stillWriting, a0, a', l0, l + 1)
    ensures InStep(o, s0, input0, gone, !stillWriting, l0, l + 1, out')
    ensures more && stillWriting ==> Pace(o, s0, input0, l + 1 - l0, passed', s', input')
  {
    hide Watched, InStep, Pace, Worked, Rendered, IsDone, FrameOf, NextCut, FirstChunks;
    WatchedLook(works, gone, a0, a, l0, l);
    if gone(l) || NextCut([], input).None? {
      InStepLook(o, s0, input0, passed, s, input, gone, l0, l);
    } else {
      WatchedWrites(works, gone, a0, a, l0, l + 1, n, stillWriting);
      InStepWrite(o, s0, input0, passed, s, input, gone, l0, l, n, !stillWriting);
      PaceGoesOn(o, s0, input0, l - l0, passed, s, input);
    }
  }

  /** Reads a frame and passes it on. */
  method TakeFrame<S>(client: Client, reader: FrameReader, result: Result, o: Options<S>, s: S, writing: bool,
                      ghost c: Course<S>, ghost passed: seq<Bytes>, ghost out: seq<Bytes>)
      returns (s': S, stillWriting: bool, turn: Turn, ghost passed': seq<Bytes>, ghost out': seq<Bytes>, ghost n: nat)
    requires writing <==> !client.seenGone
    requires Consistent(client, result, o) && !result.sawDone
    requires Going(client, result, c, CourseOf(o, s, reader.input), passed, out)
    modifies client, reader, result
    ensures stillWriting <==> !client.seenGone
    ensures Consistent(client, result, o)
    ensures client.looks == old(client.looks)
    ensures out <= out' && client.delivered == old(client.delivered) + out'[|out|..]
    ensures turn == More ==>
      && !result.sawDone && |reader.input| < old(|reader.input|)
      && Going(client, result, c, CourseOf(o, s', reader.input), passed', out')
    ensures turn == Stop ==>
      Going(client, result, c, Over(s', result.sawDone), passed', out') && (reader.breaks ==> c.done)
    ensures turn == Cancel ==> out' <= c.chunks && client.seenGone && !(o.drain && o.slot)
    ensures turn == Break ==>
      out' <= c.chunks && reader.breaks && !c.done && (!client.seenGone ==> out' == c.chunks)
    ensures Sent(o, s, old(reader.input), client.works, writing, stillWriting, old(client.attempts), client.attempts,
              passed, passed', out, out', s', reader.input, turn == More, n)
  {
    hide CourseOf, Ahead, Wrote, Over, Rendered, IsDone, FrameOf, NextCut, AlwaysWorks, NeverGone, Worked;
    var cancelled;
    s', stillWriting, passed', out', n := s, writing, passed, out, 0;
    ghost var input := reader.input;
    FrameLaws.CutIsFair([], input);
    var read := reader.Next();
    if !read.Got? {
      AheadOfEnd(o, s, input, c, passed, result.observed, result.faults);
      AheadOfNothing(c, s, false, passed, result.observed, result.faults);
      WroteAll(passed, out, writing);
      turn := if read.Broken? then Break else Stop;
      return;
    }
    AheadOfFrame(o, s, input, c, passed, result.observed, result.faults);
    ghost var r := Rendered(o, s, read.frame);
    s', stillWriting, cancelled, n := PassFrame(client, result, o, s, read.frame, writing);
    WroteMore(passed, out, writing, r.chunks, n, stillWriting);
    passed', out' := passed + r.chunks, out + r.chunks[..n];
    assert out'[|out|..] == r.chunks[..n];
    if cancelled {
      WrotePrefix(c, if IsDone(read.frame) then Over(r.state, true) else CourseOf(o, r.state, reader.input),
        passed', result.observed, result.faults, out', stillWriting);
      turn := Cancel;
      return;
    }
    turn := if IsDone(read.frame) then Stop else More;
  }

  /** Looks for the client, and then reads a frame and passes it on. */
  method TakeTurn<S>(client: Client, reader: FrameReader, result: Result, o: Options<S>, s: S, writing: bool,
                     ghost c: Course<S>, ghost passed: seq<Bytes>, ghost out: seq<Bytes>,
                     ghost s0: S, ghost input0: Bytes, ghost a0: nat, ghost l0: nat)
      returns (s': S, stillWriting: bool, turn: Turn, ghost passed': seq<Bytes>, ghost out': seq<Bytes>)
    requires writing <==> !client.seenGone
    requires Consistent(client, result, o) && !result.sawDone
    requires Going(client, result, c, CourseOf(o, s, reader.input), passed, out)
    requires Followed(client, o, s0, input0, a0, l0, out)
    requires writing ==> OnPace(client, o, s0, input0, l0, passed, s, reader.input)
    modifies client, reader, result
    ensures stillWriting <==> !client.seenGone
    ensures Consistent(client, result, o)
    ensures out <= out' && client.delivered == old(client.delivered) + out'[|out|..]
    ensures turn == More ==>
      && !result.sawDone && |reader.input| < old(|reader.input|)
      && Going(client, result, c, CourseOf(o, s', reader.input), passed', out')
    ensures turn == Stop ==>
      Going(client, result, c, Over(s', result.sawDone), passed', out') && (reader.breaks ==> c.done)
    ensures turn == Cancel ==> out' <= c.chunks && client.seenGone && !(o.drain && o.slot)
    ensures turn == Break ==>
      out' <= c.chunks && reader.breaks && !c.done && (!client.seenGone ==> out' == c.chunks)
    ensures Followed(client, o, s0, input0, a0, l0, out')
    ensures turn == More && stillWriting ==> OnPace(client, o, s0, input0, l0, passed', s', reader.input)
  {
    hide CourseOf, Ahead, Wrote, Over, AlwaysWorks, NeverGone, Watched, InStep, Pace, Sent;
    var cancelled;
    s', passed', out' := s, passed, out;
    ghost var attempts, looks, input, n := client.attempts, client.looks, reader.input, 0;
    stillWriting, cancelled := LookForClient(client, result, o, writing);
    WroteLess(passed, out, writing, stillWriting);
    if writing {
      AllWrote(passed, out);
    }
    if cancelled {
      WrotePrefix(c, CourseOf(o, s, reader.input), passed, result.observed, result.faults, out, stillWriting);
      turn := Cancel;
      NothingSent(o, s, input, client.works, attempts, passed, out, s', input, 0);
    } else {
      s', stillWriting, turn, passed', out', n :=
        TakeFrame(client, reader, result, o, s, stillWriting, c, passed, out);
    }
    if writing {
      TurnSeen(o, s0, input0, s, input, client.works, client.gone, stillWriting, a0, l0, looks,
        attempts, client.attempts, passed, passed', out', s', reader.input, turn == More, n);
    } else {
      SentNothing(o, s, input, client.works, stillWriting, attempts, client.attempts,
        passed, passed', out, out', s', reader.input, turn == More, n);
    }
  }

  lemma NothingSent<S>(o: Options<S>, s: S, input: Bytes, works: nat -> bool, a: nat,
                       passed: seq<Bytes>, out: seq<Bytes>, s': S, input': Bytes, n: nat)
    ensures Sent(o, s, input, works, false, false, a, a, passed, passed, out, out, s', input', false, n)
  {
  }

  lemma SentNothing<S>(o: Options<S>, s: S, input: Bytes, works: nat -> bool, stillWriting: bool, a: nat, a': nat,
                       passed: seq<Bytes>, passed': seq<Bytes>, out: seq<Bytes>, out': seq<Bytes>,
                       s': S, input': Bytes, more: bool, n: nat)
    requires Sent(o, s, input, works, false, stillWriting, a, a', passed, passed', out, out', s', input', more, n)
    ensures !stillWriting && a' == a && out' == out
  {
  }

  /** The end of a stream that was read to its end: trailers for a client that is
      still there. */
  method FinishStream<S>(client: Client, result: Result, o: Options<S>, s: S, writing: bool,
                         ghost c: Course<S>, ghost passed: seq<Bytes>, ghost out: seq<Bytes>)
    requires writing <==> !client.seenGone
    requires Going(client, result, c, Over(s, result.sawDone), passed, out)
    modifies client`attempts, client`delivered, result`chunks, result`sawDone
    ensures out <= c.chunks && s == c.state && result.observed == c.observed && result.faults == c.faults
    ensures result.sawDone == (c.done || (o.translate.Some? && !client.seenGone))
    ensures result.chunks == |c.chunks| + (if client.seenGone then 0 else |TrailingOf(o, c.state)|)
    ensures client.seenGone ==> client.delivered == old(client.delivered)
    ensures !client.seenGone ==>
      && out == c.chunks && client.attempts >= |Trailer(o, c)|
      && client.delivered
           == old(client.delivered) + Kept(client.works, client.attempts - |Trailer(o, c)|, Trailer(o, c))
    ensures client.attempts == old(client.attempts) + if client.seenGone then 0 else |Trailer(o, c)|
  {
    hide Ahead, Wrote, Over, Trailer, TrailingOf, Kept;
    AheadOfNothing(c, s, result.sawDone, passed, result.observed, result.faults);
    WrotePrefix(c, Over(s, result.sawDone), passed, result.observed, result.faults, out, writing);
    if writing {
      TrailerIs(o, c);
      AllWrote(passed, out);
      WriteTrailers(client, result, o, s);
    }
  }

  lemma RelayStarts<S>(client: Client, result: Result, o: Options<S>, s: S, input: Bytes)
    requires !client.seenGone && result.observed == [] && result.faults == result.chunks == 0
    ensures Going(client, result, CourseOf(o, s, input), CourseOf(o, s, input), [], [])
    ensures Followed(client, o, s, input, client.attempts, client.looks, [])
    ensures OnPace(client, o, s, input, client.looks, [], s, input)
  {
    hide CourseOf, Ahead, Wrote, Watched, InStep, Pace;
    WatchedStarts(client.works, client.gone, client.attempts, client.looks);
    StillThere(o, s, input, client.gone, client.looks, client.looks, []);
    PaceStarts(o, s, input);
    AheadAtFirst(CourseOf(o, s, input));
    NothingWrote();
  }

  lemma FollowedTo<S>(client: Client, o: Options<S>, s0: S, input0: Bytes, a0: nat, l0: nat, out: seq<Bytes>)
    requires Followed(client, o, s0, input0, a0, l0, out)
    ensures Watched(client.works, client.gone, client.seenGone, a0, client.attempts, l0, client.looks)
    ensures InStep(o, s0, input0, client.gone, client.seenGone, l0, client.looks, out)
  {
    hide Watched, InStep;
  }

  /** Reads a frame, counts it and writes what it becomes, until the stream or the
      client ends. */
  method Relay<S>(client: Client, reader: FrameReader, o: Options<S>, s0: S)
      returns (result: Result, ending: Ending, final: S, ghost out: seq<Bytes>)
    requires !client.seenGone
    modifies client, reader
    ensures fresh(result)
    ensures out <= CourseOf(o, s0, old(reader.input)).chunks
    ensures client.seenGone || !ending.Finished? ==> client.delivered == old(client.delivered) + out
    ensures !client.seenGone && ending.UpstreamBroke? ==> out == CourseOf(o, s0, old(reader.input)).chunks
    ensures !client.seenGone && ending.Finished? ==>
      var c := CourseOf(o, s0, old(reader.input));
      && out == c.chunks && client.attempts >= |Trailer(o, c)|
      && client.delivered == old(client.delivered) + out
           + Kept(client.works, client.attempts - |Trailer(o, c)|, Trailer(o, c))
    ensures ending.Finished? ==>
      var c := CourseOf(o, s0, old(reader.input));
      && final == c.state && result.observed == c.observed && result.faults == c.faults
      && result.sawDone == (c.done || (o.translate.Some? && !client.seenGone))
      && result.chunks == |c.chunks| + (if client.seenGone then 0 else |TrailingOf(o, c.state)|)
    ensures !ending.Cancelled? ==>
      (ending.UpstreamBroke? <==> reader.breaks && !CourseOf(o, s0, old(reader.input)).done)
    ensures result.clientDisconnected <==> client.seenGone
    ensures ending.Cancelled? ==> client.seenGone && !(o.drain && o.slot)
    ensures result.drained ==> client.seenGone && o.drain && o.slot
    ensures AlwaysWorks(client.works) && NeverGone(client.gone) ==> !client.seenGone
    ensures
      var c := CourseOf(o, s0, old(reader.input));
      var trailers := if ending.Finished? && !client.seenGone then |Trailer(o, c)| else 0;
      && trailers <= client.attempts
      && Watched(client.works, client.gone, client.seenGone,
           old(client.attempts), client.attempts - trailers, old(client.looks), client.looks)
    ensures InStep(o, s0, old(reader.input), client.gone, client.seenGone, old(client.looks), client.looks, out)
  {
    hide CourseOf, Trailer, TrailingOf, Kept, AlwaysWorks, NeverGone, Ahead, Wrote, Over;
    hide Watched, InStep, Pace, Followed, OnPace, Going;
    result := new Result();
    final, out := s0, [];
    var writing, turn := true, More;
    ghost var c, start := CourseOf(o, s0, reader.input), client.delivered;
    ghost var passed: seq<Bytes> := [];
    ghost var input0, a0, l0 := reader.input, client.attempts, client.looks;
    RelayStarts(client, result, o, s0, input0);
    while turn == More
      invariant fresh(result) && writing <==> !client.seenGone
      invariant Consistent(client, result, o) && client.delivered == start + out
      invariant turn == More ==>
        !result.sawDone && Going(client, result, c, CourseOf(o, final, reader.input), passed, out)
      invariant turn == Stop ==>
        Going(client, result, c, Over(final, result.sawDone), passed, out) && (reader.breaks ==> c.done)
      invariant turn == Cancel ==> out <= c.chunks && client.seenGone && !(o.drain && o.slot)
      invariant Followed(client, o, s0, input0, a0, l0, out)
      invariant turn == More && writing ==> OnPace(client, o, s0, input0, l0, passed, final, reader.input)
      invariant turn == Break ==>
        out <= c.chunks && reader.breaks && !c.done && (!client.seenGone ==> out == c.chunks)
      decreases turn == More, |reader.input|
    {
      final, writing, turn, passed, out :=
        TakeTurn(client, reader, result, o, final, writing, c, passed, out, s0, input0, a0, l0);
    }
    FollowedTo(client, o, s0, input0, a0, l0, out);
    if turn != Stop {
      ending := if turn == Cancel then Cancelled else UpstreamBroke;
      return;
    }
    ending := Finished;
    FinishStream(client, result, o, final, writing, c, passed, out);
  }
}
