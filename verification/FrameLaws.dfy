/** What the frame reader keeps of a stream, and how its frames compare with the
    event stream format of section 9.2.6 of the WHATWG HTML Standard. */
module FrameLaws {
  import opened Basics
  import opened Frames

  // ----- one cut -----------------------------------------------------------

  /** A cut makes progress and stays under the cap. It loses nothing, unless the
      frame is oversized: then the rest of the line that went over the cap is
      dropped, and no more than that. */
  ghost predicate Fair(all: Bytes, c: Cut) {
    && |c.raw| <= MAX_FRAME_BYTES && |c.raw| + |c.rest| <= |all|
    && (!c.oversized ==> c.raw + c.rest == all)
    && (c.oversized ==>
          var d := |all| - |c.rest|;
          && |c.raw| == MAX_FRAME_BYTES < d && c.raw == all[..MAX_FRAME_BYTES] && c.rest == all[d..]
          && (forall i :: MAX_FRAME_BYTES <= i < d - 1 ==> all[i] != LF)
          && (c.rest == [] || all[d - 1] == LF))
  }

  lemma {:induction false} CutIsFair(buf: Bytes, s: Bytes)
    requires |buf| <= MAX_FRAME_BYTES
    ensures NextCut(buf, s).None? <==> buf + s == []
    ensures NextCut(buf, s).Some? ==> Fair(buf + s, NextCut(buf, s).value) && |NextCut(buf, s).value.rest| <= |s|
    ensures NextCut(buf, s).Some? && s != [] ==> |NextCut(buf, s).value.rest| < |s|
    decreases |s|
  {
    if s != [] {
      var line, rest := s[..LineLength(s)], s[LineLength(s)..];
      assert buf + s == buf + line + rest;
      if |buf| + |line| > MAX_FRAME_BYTES {
        OversizedIsFair(buf, s);
      } else {
        CutIsFair(buf + line, rest);
      }
    }
  }

  lemma OversizedIsFair(buf: Bytes, s: Bytes)
    requires |buf| <= MAX_FRAME_BYTES < |buf| + LineLength(s) && s != []
    ensures Fair(buf + s, Cut((buf + s[..LineLength(s)])[..MAX_FRAME_BYTES], true, s[LineLength(s)..]))
  {
    var all, n := buf + s, LineLength(s);
    assert (buf + s[..n])[..MAX_FRAME_BYTES] == all[..MAX_FRAME_BYTES];
    assert all[|buf| + n..] == s[n..];
    forall i | MAX_FRAME_BYTES <= i < |buf| + n - 1
      ensures all[i] != LF
    {
      assert all[i] == s[i - |buf|];
    }
    if s[n..] != [] {
      assert all[|buf| + n - 1] == s[n - 1];
    }
  }

  // ----- the whole stream --------------------------------------------------

  /** What reading to the end of the stream gives. */
  function Cuts(s: Bytes): seq<Cut>
    decreases |s|
  {
    CutIsFair([], s);
    var c := NextCut([], s);
    if c.None? then [] else [c.value] + Cuts(c.value.rest)
  }

  function Relayed(cuts: seq<Cut>): Bytes {
    if cuts == [] then [] else HandedOn(cuts[0].raw) + Relayed(cuts[1..])
  }

  predicate Intact(c: Cut) {
    !c.oversized && !Spoiled(c.raw)
  }

  lemma {:induction false} RelayedLength(s: Bytes)
    ensures |Relayed(Cuts(s))| <= |s|
    ensures |Relayed(Cuts(s))| == |s| ==> forall c :: c in Cuts(s) ==> !c.oversized
    decreases |s|
  {
    CutIsFair([], s);
    assert [] + s == s;
    if s != [] {
      var c := NextCut([], s).value;
      RelayedLength(c.rest);
      assert Cuts(s)[1..] == Cuts(c.rest);
    }
  }

  /** The raw bytes of all frames together are the stream itself exactly when no
      frame is oversized and none has several data lines of which the first ends
      in a CR. */
  lemma {:induction false} RelayedIsTheStream(s: Bytes)
    ensures Relayed(Cuts(s)) == s <==> forall c :: c in Cuts(s) ==> Intact(c)
    decreases |s|
  {
    CutIsFair([], s);
    assert [] + s == s;
    if s != [] {
      var c := NextCut([], s).value;
      RelayedIsTheStream(c.rest);
      RelayedLength(s);
      assert Cuts(s)[1..] == Cuts(c.rest) && Cuts(s)[0] == c;
      var head, tail := HandedOn(c.raw), Relayed(Cuts(c.rest));
      if !c.oversized {
        assert (head + tail)[..|c.raw|] == head && (head + tail)[|c.raw|..] == tail;
        assert s[..|c.raw|] == c.raw && s[|c.raw|..] == c.rest;
      }
      assert (forall x :: x in Cuts(s) ==> Intact(x)) <==> Intact(c) && forall x :: x in Cuts(c.rest) ==> Intact(x);
    }
  }

  /** The second half of that condition does happen, wherever a data line that ends
      in CRLF comes first and another data line follows: the CR becomes an LF. */
  lemma SpoiledFrame(value: Bytes, rest: Bytes)
    requires LF !in value && SomeData(Lines(rest))
    ensures HandedOn(DATA + value + [CR, LF] + rest) == DATA + value + [LF, LF] + rest
    ensures Spoiled(DATA + value + [CR, LF] + rest)
  {
    hide *;
    var raw, line := DATA + value + [CR, LF] + rest, DATA + value + [CR];
    SpoiledBytes(value, rest);
    LinesAt(raw, |line|);
    assert Lines(raw)[0] == line && Lines(raw)[1..] == Lines(rest);
    CarriesData(value);
    OverwrittenAtOnce(Lines(raw));
    HandedOnIs(raw);
    SpoiledIs(raw);
  }

  lemma SpoiledBytes(value: Bytes, rest: Bytes)
    requires LF !in value
    ensures
      var raw, line := DATA + value + [CR, LF] + rest, DATA + value + [CR];
      && |line| < |raw| && raw[|line|] == LF && (forall j :: 0 <= j < |line| ==> raw[j] != LF)
      && raw[..|line|] == line && raw[|line| + 1..] == rest
      && raw[|line| - 1 := LF] == DATA + value + [LF, LF] + rest
  {
    assert forall c :: c in DATA ==> c != LF;
  }

  lemma OverwrittenAtOnce(lines: seq<Bytes>)
    requires lines != [] && IsData(lines[0]) && EndsInCR(lines[0]) && SomeData(lines[1..])
    ensures Overwritten(lines, 0) == Some(|lines[0]| - 1)
  {
  }

  lemma SpoiledIs(raw: Bytes)
    ensures Spoiled(raw) <==> Overwritten(Lines(raw), 0).Some?
  {
  }

  lemma CarriesData(value: Bytes)
    ensures IsData(DATA + value + [CR]) && EndsInCR(DATA + value + [CR])
  {
    assert TrimCR(DATA + value + [CR]) == DATA + value;
  }

  lemma LinesAt(s: Bytes, i: nat)
    requires i < |s| && s[i] == LF && forall j :: 0 <= j < i ==> s[j] != LF
    ensures FirstLF(s) == i && Lines(s) == [s[..i]] + Lines(s[i + 1..])
  {
  }

  // ----- where a frame ends ------------------------------------------------

  /** The lines of some bytes, each with the LF that ends it. */
  function FullLines(s: Bytes): seq<Bytes>
    decreases |s|
  {
    if s == [] then [] else [s[..LineLength(s)]] + FullLines(s[LineLength(s)..])
  }

  predicate Closed(s: Bytes) {
    s == [] || s[|s| - 1] == LF
  }

  lemma {:induction false} FullLinesAppend(s: Bytes, t: Bytes)
    requires s == [] || Closed(s)
    ensures FullLines(s + t) == FullLines(s) + FullLines(t)
    decreases |s|
  {
    hide *;
    if s == [] {
      NoFullLines();
      assert s + t == t && [] + FullLines(t) == FullLines(t);
    } else {
      ClosedLine(s, t);
      var n := LineLength(s);
      assert (s + t)[..n] == s[..n] && (s + t)[n..] == s[n..] + t;
      FullLinesAppend(s[n..], t);
      FullLinesCons(s);
      FullLinesCons(s + t);
      assert [s[..n]] + (FullLines(s[n..]) + FullLines(t)) == [s[..n]] + FullLines(s[n..]) + FullLines(t);
    }
  }

  lemma NoFullLines()
    ensures FullLines([]) == []
  {
  }

  lemma FullLinesCons(s: Bytes)
    requires s != []
    ensures LineLength(s) <= |s| && FullLines(s) == [s[..LineLength(s)]] + FullLines(s[LineLength(s)..])
  {
  }

  lemma ClosedLine(s: Bytes, t: Bytes)
    requires Closed(s) && s != []
    ensures LineLength(s + t) == LineLength(s) && 0 < LineLength(s) <= |s| && Closed(s[LineLength(s)..])
  {
    FirstLFAppend(s, t);
    assert s[|s| - 1] == LF;
  }

  lemma {:induction false} FirstLFAppend(s: Bytes, t: Bytes)
    ensures FirstLF(s) < |s| ==> FirstLF(s + t) == FirstLF(s)
    ensures FirstLF(s) == |s| ==> FirstLF(s + t) == |s| + FirstLF(t)
  {
    if s == [] {
      assert s + t == t;
    } else if s[0] != LF {
      assert (s + t)[1..] == s[1..] + t;
      FirstLFAppend(s[1..], t);
    }
  }

  /** Blank lines only at its very start, and one at its end unless the stream
      ends there. */
  ghost predicate EndsWhereItShould(c: Cut) {
    var lines := FullLines(c.raw);
    && (forall i :: 0 < i < |lines| - 1 ==> !Blank(lines[i]))
    && (c.rest != [] ==> |lines| >= 2 && Blank(lines[|lines| - 1]))
  }

  lemma {:induction false} CutEndsWhereItShould(buf: Bytes, s: Bytes)
    requires |buf| <= MAX_FRAME_BYTES && Closed(buf)
    requires forall i :: 0 < i < |FullLines(buf)| ==> !Blank(FullLines(buf)[i])
    ensures NextCut(buf, s).Some? && !NextCut(buf, s).value.oversized ==> EndsWhereItShould(NextCut(buf, s).value)
    decreases |s|
  {
    if s != [] {
      var n := LineLength(s);
      var line, rest := s[..n], s[n..];
      if |buf| + |line| <= MAX_FRAME_BYTES {
        FullLinesAppend(buf, line);
        OneFullLine(s);
        assert FullLines(buf + line) == FullLines(buf) + [line];
        if Blank(line) && buf != [] {
          assert |FullLines(buf)| > 0;
        } else if rest == [] {
          assert NextCut(buf + line, rest) == Some(Cut(buf + line, false, []));
        } else {
          CutEndsWhereItShould(buf + line, rest);
        }
      }
    }
  }

  lemma OneFullLine(s: Bytes)
    requires s != []
    ensures FullLines(s[..LineLength(s)]) == [s[..LineLength(s)]]
    ensures s[LineLength(s)..] != [] ==> Closed(s[..LineLength(s)])
  {
    var line := s[..LineLength(s)];
    FirstLFAppend(line, s[LineLength(s)..]);
    assert line + s[LineLength(s)..] == s;
    assert LineLength(line) == |line|;
    assert line[..|line|] == line && line[|line|..] == [];
    assert FullLines(line) == [line] + FullLines([]);
  }

  // ----- writing and reading back ------------------------------------------

  function Encode(payload: Bytes): Bytes {
    "data: " + payload + [LF, LF]
  }

  function EncodeAll(payloads: seq<Bytes>): Bytes {
    if payloads == [] then [] else Encode(payloads[0]) + EncodeAll(payloads[1..])
  }

  predicate Plain(payload: Bytes) {
    LF !in payload && !EndsInCR(payload) && |payload| + 8 <= MAX_FRAME_BYTES
  }

  ghost predicate ReadsBack(payload: Bytes, rest: Bytes) {
    && NextCut([], Encode(payload) + rest) == Some(Cut(Encode(payload), false, rest))
    && Joined(None, Lines(Encode(payload))) == Some(payload)
  }

  lemma EncodedLines(payload: Bytes)
    requires LF !in payload
    ensures Lines(Encode(payload)) == ["data: " + payload, [], []]
    ensures LineLength(Encode(payload)) == |payload| + 7
  {
    hide Lines, FirstLF, Blank;
    EncodedSplits(payload, []);
    var line: Bytes, s := "data: " + payload, Encode(payload);
    assert s == line + [LF] + [LF];
    FirstLine(line, [LF]);
    assert s[|line|] == LF && forall j :: 0 <= j < |line| ==> s[j] == line[j];
    LinesAt(s, |line|);
    assert s[..|line|] == line;
    LinesOfLF();
    assert [line] + [[], []] == [line, [], []];
  }

  lemma LinesOfLF()
    ensures Lines([LF]) == [[], []]
  {
    var lf: Bytes := [LF];
    LinesAt(lf, 0);
    assert lf[..0] == [] && lf[1..] == [];
    LastLine([]);
  }

  lemma NoLF(s: Bytes)
    requires LF !in s
    ensures FirstLF(s) == |s|
  {
  }

  lemma EncodedData(payload: Bytes)
    requires LF !in payload
    ensures Joined(None, Lines(Encode(payload))) == Some(TrimCR(payload))
  {
    hide *;
    EncodedLines(payload);
    EncodedValue(payload);
    JoinedSteps("data: " + payload);
  }

  lemma DataAndSpace(x: Bytes)
    ensures "data: " + x == DATA + ([' '] + x)
  {
    assert "data: " == DATA + [' '];
  }

  lemma AfterPrefix(a: Bytes, b: Bytes)
    ensures a <= a + b && (a + b)[|a|..] == b
  {
  }

  lemma TrimCRAppend(a: Bytes, b: Bytes)
    requires !EndsInCR(a)
    ensures TrimCR(a + b) == a + TrimCR(b)
  {
    if EndsInCR(b) {
      assert (a + b)[..|a + b| - 1] == a + b[..|b| - 1];
    }
  }

  lemma SpaceDropped(x: Bytes)
    ensures DropSpace([' '] + x) == x
  {
    AfterPrefix([' '], x);
  }

  /** The line that an event is written on carries its payload, but for a CR. */
  lemma EncodedValue(x: Bytes)
    ensures IsData("data: " + x) && Value("data: " + x) == TrimCR(x)
  {
    hide TrimCR, DropSpace;
    var space: Bytes := [' '];
    TrimCRAppend("data: ", x);
    DataAndSpace(TrimCR(x));
    AfterPrefix(DATA, space + TrimCR(x));
    SpaceDropped(TrimCR(x));
  }

  lemma JoinedSteps(line: Bytes)
    requires IsData(line)
    ensures Joined(None, [line, [], []]) == Some(Value(line))
  {
    var e: seq<Bytes> := [[], []];
    assert [line, [], []][1..] == e && e[1..] == [[]];
    assert !IsData([]);
  }

  lemma EncodedCut(payload: Bytes, rest: Bytes)
    requires LF !in payload && |payload| + 8 <= MAX_FRAME_BYTES
    ensures NextCut([], Encode(payload) + rest) == Some(Cut(Encode(payload), false, rest))
  {
    hide *;
    var line: Bytes, tail: Bytes := "data: " + payload, [LF] + rest;
    var s := Encode(payload) + rest;
    EncodedSplits(payload, rest);
    FirstLine(line, tail);
    CutUnfold([], s);
    assert [] + (line + [LF]) == line + [LF];
    FirstLine([], rest);
    assert [] + [LF] + rest == tail && [] + [LF] == [LF];
    LFIsBlank();
    CutUnfold(line + [LF], tail);
  }

  lemma EncodedSplits(payload: Bytes, rest: Bytes)
    requires LF !in payload
    ensures Encode(payload) + rest == "data: " + payload + [LF] + ([LF] + rest)
    ensures Encode(payload) == "data: " + payload + [LF] + [LF]
    ensures LF !in "data: " + payload && !Blank("data: " + payload + [LF])
    ensures |"data: " + payload + [LF]| == |payload| + 7 && MAX_FRAME_BYTES > 8
  {
    assert ("data: " + payload + [LF])[0] == 'd';
    assert LF !in "data: ";
  }

  lemma LFIsBlank()
    ensures Blank([LF])
  {
  }

  lemma FirstLine(line: Bytes, rest: Bytes)
    requires LF !in line
    ensures LineLength(line + [LF] + rest) == |line| + 1
    ensures (line + [LF] + rest)[..|line| + 1] == line + [LF] && (line + [LF] + rest)[|line| + 1..] == rest
  {
    hide FirstLF;
    var s := line + [LF] + rest;
    assert s[|line|] == LF;
    assert forall j :: 0 <= j < |line| ==> s[j] == line[j];
    LinesAt(s, |line|);
  }

  lemma CutUnfold(buf: Bytes, s: Bytes)
    requires |buf| <= MAX_FRAME_BYTES && s != []
    ensures
      var line, rest := s[..LineLength(s)], s[LineLength(s)..];
      |buf| + |line| <= MAX_FRAME_BYTES ==>
        NextCut(buf, s)
        == if Blank(line) && buf != [] then Some(Cut(buf + line, false, rest)) else NextCut(buf + line, rest)
  {
  }

  function TotalLength(lines: seq<Bytes>): nat {
    if lines == [] then 0 else |lines[0]| + 1 + TotalLength(lines[1..])
  }

  lemma {:induction false} LinesLength(s: Bytes)
    ensures TotalLength(Lines(s)) == |s| + 1
    decreases |s|
  {
    var i := FirstLF(s);
    if i < |s| {
      LinesLength(s[i + 1..]);
      assert Lines(s)[1..] == Lines(s[i + 1..]);
    }
  }

  /** Joining another line gives back less than the line takes up. */
  lemma {:induction false} JoinedGrowth(data: Bytes, lines: seq<Bytes>)
    ensures
      var v := Joined(Some(data), lines);
      v.Some? && (v.value == data || |v.value| + 5 <= |data| + TotalLength(lines))
    decreases |lines|
  {
    if lines != [] {
      JoinedGrowth(Joined1(Some(data), lines[0]).value, lines[1..]);
    }
  }

  lemma LFIsNotReadBack(payload: Bytes)
    requires LF in payload
    ensures Joined(None, Lines(Encode(payload))) != Some(payload)
  {
    hide *;
    var k := FirstLF(payload);
    HasLF(payload);
    var a, b: Bytes := payload[..k], payload[k + 1..] + [LF, LF];
    EncodedAt(payload, k);
    LinesAt(Encode(payload), k + 6);
    assert Encode(payload)[..k + 6] == "data: " + a && Encode(payload)[k + 7..] == b;
    EncodedValue(a);
    JoinedFirst("data: " + a, Lines(b));
    ShorterThan(a, k);
    LinesLength(b);
    JoinedGrowth(TrimCR(a), Lines(b));
  }

  lemma HasLF(s: Bytes)
    requires LF in s
    ensures FirstLF(s) < |s|
  {
  }

  lemma EncodedAt(payload: Bytes, k: nat)
    requires k == FirstLF(payload) < |payload|
    ensures |Encode(payload)| == |payload| + 8
    ensures Encode(payload)[k + 6] == LF && forall j :: 0 <= j < k + 6 ==> Encode(payload)[j] != LF
    ensures Encode(payload)[..k + 6] == "data: " + payload[..k]
    ensures Encode(payload)[k + 7..] == payload[k + 1..] + [LF, LF]
  {
    hide FirstLF;
  }

  lemma JoinedFirst(line: Bytes, lines: seq<Bytes>)
    requires IsData(line)
    ensures Joined(None, [line] + lines) == Joined(Some(Value(line)), lines)
  {
    assert ([line] + lines)[1..] == lines;
  }

  lemma ShorterThan(a: Bytes, k: nat)
    requires |a| == k
    ensures |TrimCR(a)| <= k
  {
  }

  /** What is written as one event is read back as that event exactly when the
      payload has no LF, does not end in a CR and leaves the frame under the cap. */
  lemma ReadBackExactly(payload: Bytes, rest: Bytes)
    ensures ReadsBack(payload, rest) <==> Plain(payload)
  {
    if LF in payload {
      LFIsNotReadBack(payload);
    } else {
      EncodedData(payload);
      CutIsFair([], Encode(payload) + rest);
      if |payload| + 8 <= MAX_FRAME_BYTES {
        EncodedCut(payload, rest);
      }
    }
  }

  /** So a stream of written events is read back as the same payloads, in order. */
  lemma {:induction false} AllReadBack(payloads: seq<Bytes>)
    requires forall p :: p in payloads ==> Plain(p)
    ensures |Cuts(EncodeAll(payloads))| == |payloads|
    ensures forall i :: 0 <= i < |payloads| ==>
      var f := FrameOf(Cuts(EncodeAll(payloads))[i]);
      f.data == Some(payloads[i]) && !f.oversized && f.raw == Encode(payloads[i])
  {
    hide NextCut, Encode, Lines, Joined, HandedOn, LastEvent, Plain;
    var s := EncodeAll(payloads);
    CutIsFair([], s);
    if payloads != [] {
      var rest := EncodeAll(payloads[1..]);
      assert payloads[0] in payloads;
      ReadBackExactly(payloads[0], rest);
      NotSpoiled(payloads[0]);
      AllReadBack(payloads[1..]);
      assert [] + s == s;
      assert Cuts(s) == [Cut(Encode(payloads[0]), false, rest)] + Cuts(rest);
    } else {
      assert Cuts(s) == [];
    }
  }

  lemma NotSpoiled(payload: Bytes)
    requires Plain(payload)
    ensures HandedOn(Encode(payload)) == Encode(payload)
  {
    EncodedLines(payload);
    var e: seq<Bytes> := [[], []];
    assert Lines(Encode(payload))[1..] == e;
    assert !IsData([]) && !SomeData(e);
  }

  // ----- the standard ------------------------------------------------------

  /** Where the first line of a stream ends: at a CR or an LF. */
  function FirstEnd(s: Bytes): (i: nat)
    ensures i <= |s| && (i < |s| ==> s[i] == LF || s[i] == CR)
    ensures forall j :: 0 <= j < i ==> s[j] != LF && s[j] != CR
  {
    if s == [] || s[0] == LF || s[0] == CR then 0 else 1 + FirstEnd(s[1..])
  }

  /** Lines end in LF, in CRLF or in CR. */
  function StandardLines(s: Bytes): seq<Bytes>
    decreases |s|
  {
    var i := FirstEnd(s);
    if i == |s| then [s]
    else if s[i] == CR && i + 1 < |s| && s[i + 1] == LF then [s[..i]] + StandardLines(s[i + 2..])
    else [s[..i]] + StandardLines(s[i + 1..])
  }

  function Trimmed(lines: seq<Bytes>): seq<Bytes> {
    if lines == [] then [] else [TrimCR(lines[0])] + Trimmed(lines[1..])
  }

  predicate BareCR(s: Bytes) {
    exists i :: 0 <= i < |s| && s[i] == CR && (i + 1 == |s| || s[i + 1] != LF)
  }

  /** The reader's lines are those of the standard exactly when every CR comes
      right before an LF. */
  lemma SameLinesExactly(s: Bytes)
    ensures StandardLines(s) == Trimmed(Lines(s)) <==> !BareCR(s)
  {
    StandardLinesCompare(s);
    TrimmedLength(Lines(s));
  }

  lemma {:induction false} TrimmedLength(lines: seq<Bytes>)
    ensures |Trimmed(lines)| == |lines|
  {
    if lines != [] {
      TrimmedLength(lines[1..]);
    }
  }

  lemma {:induction false} StandardLinesCompare(s: Bytes)
    ensures |StandardLines(s)| >= |Lines(s)|
    ensures BareCR(s) ==> |StandardLines(s)| > |Lines(s)|
    ensures !BareCR(s) ==> StandardLines(s) == Trimmed(Lines(s))
    decreases |s|
  {
    hide *;
    var i := FirstEnd(s);
    StandardLinesCons(s);
    if i == |s| {
      OneLine(s);
    } else if s[i] == LF {
      LinesAt(s, i);
      StandardLinesCompare(s[i + 1..]);
      BareCRAfter(s, i + 1);
      TrimmedCons(s[..i], Lines(s[i + 1..]));
      NoCR(s[..i]);
    } else if i + 1 < |s| && s[i + 1] == LF {
      LinesAt(s, i + 1);
      StandardLinesCompare(s[i + 2..]);
      BareCRAfter(s, i + 2);
      TrimmedCons(s[..i + 1], Lines(s[i + 2..]));
      OneCR(s[..i + 1]);
      assert s[..i + 1][..i] == s[..i];
    } else {
      BareCRAt(s, i);
      StandardLinesCompare(s[i + 1..]);
      SameNumberOfLines(s, i + 1);
    }
  }

  lemma StandardLinesCons(s: Bytes)
    ensures FirstEnd(s) == |s| ==> StandardLines(s) == [s]
    ensures
      var i := FirstEnd(s);
      i < |s| ==>
        && (s[i] == LF ==> StandardLines(s) == [s[..i]] + StandardLines(s[i + 1..]))
        && (s[i] != LF && i + 1 < |s| && s[i + 1] == LF ==>
              StandardLines(s) == [s[..i]] + StandardLines(s[i + 2..]))
        && (s[i] != LF && !(i + 1 < |s| && s[i + 1] == LF) ==>
              s[i] == CR && StandardLines(s) == [s[..i]] + StandardLines(s[i + 1..]))
  {
  }

  lemma OneLine(s: Bytes)
    requires LF !in s && CR !in s
    ensures Lines(s) == [s] && Trimmed(Lines(s)) == [s] && !BareCR(s)
  {
    NoLF(s);
    TrimmedCons(s, []);
  }

  lemma TrimmedCons(line: Bytes, lines: seq<Bytes>)
    ensures Trimmed([line] + lines) == [TrimCR(line)] + Trimmed(lines)
  {
    assert ([line] + lines)[1..] == lines;
  }

  lemma NoCR(line: Bytes)
    requires CR !in line
    ensures TrimCR(line) == line
  {
  }

  lemma OneCR(line: Bytes)
    requires line != [] && line[|line| - 1] == CR
    ensures TrimCR(line) == line[..|line| - 1]
  {
  }

  lemma BareCRAt(s: Bytes, i: nat)
    requires i < |s| && s[i] == CR && (i + 1 == |s| || s[i + 1] != LF)
    ensures BareCR(s)
  {
  }

  lemma BareCRAfter(s: Bytes, n: nat)
    requires 0 < n <= |s| && s[n - 1] == LF
    requires forall j :: 0 <= j < n - 1 && s[j] == CR ==> s[j + 1] == LF
    ensures BareCR(s) <==> BareCR(s[n..])
  {
    if BareCR(s) {
      var i :| 0 <= i < |s| && s[i] == CR && (i + 1 == |s| || s[i + 1] != LF);
      assert i >= n;
      assert s[n..][i - n] == CR;
    }
    if BareCR(s[n..]) {
      var i :| 0 <= i < |s[n..]| && s[n..][i] == CR && (i + 1 == |s[n..]| || s[n..][i + 1] != LF);
      assert s[n + i] == CR;
    }
  }

  lemma SameNumberOfLines(s: Bytes, n: nat)
    requires n <= |s| && forall j :: 0 <= j < n ==> s[j] != LF
    ensures |Lines(s)| == |Lines(s[n..])|
  {
    hide Lines, FirstLF;
    NoLF(s[..n]);
    FirstLFAppend(s[..n], s[n..]);
    assert s[..n] + s[n..] == s;
    var i := FirstLF(s[n..]);
    if n + i < |s| {
      LinesAt(s[n..], i);
      LinesAt(s, n + i);
      assert s[n..][i + 1..] == s[n + i + 1..];
    } else {
      LastLine(s);
      LastLine(s[n..]);
    }
  }

  lemma LastLine(s: Bytes)
    requires FirstLF(s) == |s|
    ensures Lines(s) == [s]
  {
  }

  function FirstColon(line: Bytes): (i: nat)
    ensures i <= |line| && (i < |line| ==> line[i] == ':') && forall j :: 0 <= j < i ==> line[j] != ':'
  {
    if line == [] || line[0] == ':' then 0 else 1 + FirstColon(line[1..])
  }

  function FieldName(line: Bytes): Bytes {
    line[..FirstColon(line)]
  }

  function FieldValue(line: Bytes): Bytes {
    if FirstColon(line) == |line| then [] else DropSpace(line[FirstColon(line) + 1..])
  }

  const DATA_NAME: Bytes := "data"

  /** Each data field appends its value and an LF to the data buffer. */
  function DataBuffer(lines: seq<Bytes>): Bytes {
    if lines == [] then []
    else (if FieldName(lines[0]) == DATA_NAME then FieldValue(lines[0]) + [LF] else []) + DataBuffer(lines[1..])
  }

  /** What is dispatched: nothing if the buffer is empty, and otherwise the buffer
      without its last LF. */
  function Dispatched(buffer: Bytes): Option<Bytes> {
    if buffer == [] then None else Some(buffer[..|buffer| - 1])
  }

  lemma DataLineMeans(line: Bytes)
    ensures IsData(line) <==> FieldName(TrimCR(line)) == DATA_NAME && TrimCR(line) != DATA_NAME
    ensures IsData(line) ==> Value(line) == FieldValue(TrimCR(line))
  {
    var l := TrimCR(line);
    if DATA <= l {
      assert l[0] == 'd' && l[1] == 'a' && l[2] == 't' && l[3] == 'a' && l[4] == ':';
      assert FirstColon(l) == 4;
      assert l[..4] == DATA_NAME;
    }
    if FieldName(l) == DATA_NAME && l != DATA_NAME {
      assert FirstColon(l) == 4 && l[4] == ':';
      assert l[..5] == DATA;
    }
    assert FirstColon(DATA_NAME) == 4;
  }

  /** The buffer of the standard, from what has been joined so far. */
  function Buffered(data: Option<Bytes>): Bytes {
    if data.None? then [] else data.value + [LF]
  }

  lemma {:induction false} JoinedIsBuffered(data: Option<Bytes>, lines: seq<Bytes>)
    ensures (forall l :: l in lines ==> TrimCR(l) != DATA_NAME) ==>
      Buffered(Joined(data, lines)) == Buffered(data) + DataBuffer(Trimmed(lines))
    ensures |Buffered(Joined(data, lines))| <= |Buffered(data)| + |DataBuffer(Trimmed(lines))|
    ensures (exists l :: l in lines && TrimCR(l) == DATA_NAME) ==>
      |Buffered(Joined(data, lines))| < |Buffered(data)| + |DataBuffer(Trimmed(lines))|
    decreases |lines|
  {
    hide IsData, FieldName, FieldValue, TrimCR, Joined1, Buffered;
    if lines != [] {
      var line := lines[0];
      BufferedStep(data, line);
      JoinedIsBuffered(Joined1(data, line), lines[1..]);
      assert lines == [line] + lines[1..];
      TrimmedCons(line, lines[1..]);
    }
  }

  lemma BufferedStep(data: Option<Bytes>, line: Bytes)
    ensures Buffered(Joined1(data, line))
         == Buffered(data) + (if IsData(line) then FieldValue(TrimCR(line)) + [LF] else [])
    ensures FieldName(TrimCR(line)) == DATA_NAME <==> IsData(line) || TrimCR(line) == DATA_NAME
    ensures TrimCR(line) == DATA_NAME ==> FieldValue(TrimCR(line)) == [] && !IsData(line)
  {
    DataLineMeans(line);
    assert FirstColon(DATA_NAME) == 4;
  }

  /** A frame carries the data that the standard says it does exactly when no line
      of it is the word "data" without a colon, which the standard takes for a
      field with an empty value and the reader passes over. */
  lemma SameDataExactly(lines: seq<Bytes>)
    ensures Joined(None, lines) == Dispatched(DataBuffer(Trimmed(lines)))
       <==> forall l :: l in lines ==> TrimCR(l) != DATA_NAME
  {
    JoinedIsBuffered(None, lines);
    var v, b := Joined(None, lines), DataBuffer(Trimmed(lines));
    assert Dispatched(Buffered(v)) == v;
    assert [] + b == b;
  }

  // ----- event names -------------------------------------------------------

  const EVENT_NAME: Bytes := "event"

  /** The event name of the standard: the value of the last event field. */
  function StandardEvent(event: Bytes, lines: seq<Bytes>): Bytes
    decreases |lines|
  {
    if lines == [] then event
    else StandardEvent(if FieldName(lines[0]) == EVENT_NAME then FieldValue(lines[0]) else event, lines[1..])
  }

  /** The lines that are not the word "event" without a colon. */
  function Colonned(lines: seq<Bytes>): seq<Bytes> {
    if lines == [] then []
    else (if lines[0] == EVENT_NAME then [] else [lines[0]]) + Colonned(lines[1..])
  }

  lemma EventLineMeans(line: Bytes)
    ensures IsEvent(line) <==> FieldName(TrimCR(line)) == EVENT_NAME && TrimCR(line) != EVENT_NAME
    ensures IsEvent(line) ==> EventOf(line) == TrimSpace(FieldValue(TrimCR(line)))
  {
    hide TrimSpace, TrimCR;
    var l := TrimCR(line);
    EventPrefix(l);
    if EVENT <= l {
      TrimDropped(l[6..]);
    }
  }

  lemma EventPrefix(l: Bytes)
    ensures EVENT <= l <==> FieldName(l) == EVENT_NAME && l != EVENT_NAME
    ensures EVENT <= l ==> FirstColon(l) == 5
  {
    if EVENT <= l {
      assert l[0] == 'e' && l[1] == 'v' && l[2] == 'e' && l[3] == 'n' && l[4] == 't' && l[5] == ':';
      assert FirstColon(l) == 5;
      assert l[..5] == EVENT_NAME;
    }
    if FieldName(l) == EVENT_NAME && l != EVENT_NAME {
      assert FirstColon(l) == 5 && l[5] == ':';
      assert l[..6] == EVENT;
    }
  }

  lemma TrimDropped(value: Bytes)
    ensures TrimSpace(DropSpace(value)) == TrimSpace(value)
  {
  }

  /** The reader's event name is that of the standard without the white space around
      it, once lines that are the bare word are left out. */
  lemma {:induction false} SameEventButSpace(event: Bytes, standard: Bytes, lines: seq<Bytes>)
    requires event == TrimSpace(standard)
    ensures LastEvent(event, lines) == TrimSpace(StandardEvent(standard, Colonned(Trimmed(lines))))
    decreases |lines|
  {
    hide TrimSpace, TrimCR, FieldName, FieldValue, IsEvent, EventOf;
    if lines != [] {
      var l := TrimCR(lines[0]);
      EventLineMeans(lines[0]);
      assert Trimmed(lines) == [l] + Trimmed(lines[1..]);
      assert ([l] + Trimmed(lines[1..]))[1..] == Trimmed(lines[1..]);
      var rest := Colonned(Trimmed(lines[1..]));
      if l == EVENT_NAME {
        assert Colonned(Trimmed(lines)) == rest;
        SameEventButSpace(event, standard, lines[1..]);
      } else {
        assert Colonned(Trimmed(lines)) == [l] + rest;
        assert ([l] + rest)[1..] == rest;
        if IsEvent(lines[0]) {
          SameEventButSpace(EventOf(lines[0]), FieldValue(l), lines[1..]);
        } else {
          SameEventButSpace(event, standard, lines[1..]);
        }
      }
    }
  }

  lemma NothingColonned(lines: seq<Bytes>)
    requires EVENT_NAME !in lines
    ensures Colonned(lines) == lines
  {
  }

  /** So where no line is the bare word, a frame has the event name of the standard
      exactly when that has no white space around it. */
  lemma SameEventExactly(lines: seq<Bytes>)
    requires EVENT_NAME !in Trimmed(lines)
    ensures LastEvent([], lines) == StandardEvent([], Trimmed(lines))
       <==> TrimSpace(StandardEvent([], Trimmed(lines))) == StandardEvent([], Trimmed(lines))
  {
    SameEventButSpace([], [], lines);
    NothingColonned(Trimmed(lines));
  }
}
