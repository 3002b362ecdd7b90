/** What the bytes of an event become when they are written after a frame that has no
    blank line at its end. */
module Gluing {
  import opened Basics
  import opened Frames
  import opened FrameLaws
  import opened Pump

  // ----- where the next cut falls ------------------------------------------

  function LineOf(payload: Bytes): Bytes {
    "data: " + payload
  }

  /** After a frame without its blank line an event is not cut off: its first line at
      least runs into that frame, and at most its blank line is left of it. */
  ghost predicate Glued(raw: Bytes, c: Cut, payload: Bytes, more: Bytes) {
    && raw <= c.raw && c.raw[|raw|..] <= Encode(payload)
    && (c.rest == more || c.rest == [LF] + more)
  }

  /** A line that goes on with an event. */
  lemma GluedLine(line: Bytes, payload: Bytes, more: Bytes)
    requires LF !in line && LF !in payload
    ensures
      var first, s := line + LineOf(payload) + [LF], line + (Encode(payload) + more);
      && s != [] && LineLength(s) == |first| == |line| + |payload| + 7
      && s[..|first|] == first && s[|first|..] == [LF] + more && !Blank(first)
  {
    hide *;
    LineIsData(payload);
    EncodedSplits(payload, more);
    FirstLine(line + LineOf(payload), [LF] + more);
    assert line + (Encode(payload) + more) == line + LineOf(payload) + [LF] + ([LF] + more);
    NotBlank(line + LineOf(payload) + [LF], |line|);
  }

  lemma LineIsData(payload: Bytes)
    ensures LineOf(payload) == "data: " + payload && |LineOf(payload)| == |payload| + 6 && LineOf(payload)[0] == 'd'
    ensures LF !in payload ==> LF !in LineOf(payload)
    ensures Encode(payload) == LineOf(payload) + [LF] + [LF]
  {
  }

  lemma NotBlank(line: Bytes, i: nat)
    requires i < |line| && line[i] == 'd'
    ensures !Blank(line)
  {
  }

  lemma CutOver(buf: Bytes, s: Bytes)
    requires |buf| <= MAX_FRAME_BYTES && s != []
    ensures
      var n := LineLength(s);
      && n <= |s|
      && (|buf| + n > MAX_FRAME_BYTES ==> NextCut(buf, s) == Some(Cut((buf + s[..n])[..MAX_FRAME_BYTES], true, s[n..])))
  {
  }

  lemma CutAtEnd(buf: Bytes)
    requires |buf| <= MAX_FRAME_BYTES && buf != []
    ensures NextCut(buf, []) == Some(Cut(buf, false, []))
  {
  }

  /** The last line of the frame takes the first line of the event. */
  lemma GlueAtOnce(buf: Bytes, line: Bytes, payload: Bytes, more: Bytes)
    requires |buf| <= MAX_FRAME_BYTES && |buf + line| <= MAX_FRAME_BYTES && LF !in line && LF !in payload
    ensures
      var c := NextCut(buf, line + (Encode(payload) + more));
      c.Some? && Glued(buf + line, c.value, payload, more)
  {
    hide *;
    GluedLine(line, payload, more);
    var s, got := line + (Encode(payload) + more), buf + (line + LineOf(payload) + [LF]);
    GluedPart(buf, line, payload, more);
    if |got| > MAX_FRAME_BYTES {
      CutOver(buf, s);
      assert NextCut(buf, s) == Some(Cut(got[..MAX_FRAME_BYTES], true, [LF] + more));
    } else {
      CutUnfold(buf, s);
      GlueBlank(got, more);
      assert got[..|got|] == got;
    }
  }

  lemma GluedPart(buf: Bytes, line: Bytes, payload: Bytes, more: Bytes)
    ensures
      var got := buf + (line + LineOf(payload) + [LF]);
      && |got| == |buf + line| + |payload| + 7 && Glued(buf + line, Cut(got + [LF], false, more), payload, more)
      && forall n, oversized, rest | |buf + line| <= n <= |got| && (rest == more || rest == [LF] + more) ::
           Glued(buf + line, Cut(got[..n], oversized, rest), payload, more)
  {
    hide LineOf, Encode;
    LineIsData(payload);
    var got := buf + (line + LineOf(payload) + [LF]);
    assert (got + [LF])[|buf + line|..] == Encode(payload);
    forall n | |buf + line| <= n <= |got|
      ensures buf + line <= got[..n] && got[..n][|buf + line|..] <= Encode(payload)
    {
      assert got[..n][|buf + line|..] == Encode(payload)[..n - |buf + line|];
    }
  }

  lemma GlueBlank(got: Bytes, more: Bytes)
    requires got != [] && |got| <= MAX_FRAME_BYTES
    ensures
      NextCut(got, [LF] + more)
      == Some(if |got| == MAX_FRAME_BYTES then Cut(got, true, more) else Cut(got + [LF], false, more))
  {
    hide *;
    LFFirst(more);
    LFIsBlank();
    CutUnfold(got, [LF] + more);
    CutOver(got, [LF] + more);
    assert (got + [LF])[..|got|] == got;
  }

  lemma LFFirst(more: Bytes)
    ensures LineLength([LF] + more) == 1 && ([LF] + more)[..1] == [LF] && ([LF] + more)[1..] == more
  {
  }

  lemma SplitAtLF(buf: Bytes, s: Bytes, tail: Bytes) returns (line: Bytes, rest: Bytes)
    requires LF in s
    ensures LF !in line && |rest| < |s| && s == line + [LF] + rest
    ensures s + tail == line + [LF] + (rest + tail) && buf + (line + [LF]) + rest == buf + s
  {
    hide *;
    HasLF(s);
    line, rest := s[..FirstLF(s)], s[FirstLF(s) + 1..];
  }

  /** What comes after a frame that the stream broke off is glued to it, unless it
      was complete. */
  lemma {:induction false} GlueAfter(buf: Bytes, s: Bytes, payload: Bytes, more: Bytes)
    requires |buf| <= MAX_FRAME_BYTES && NextCut(buf, s) == Some(Cut(buf + s, false, []))
    requires |buf + s| <= MAX_FRAME_BYTES && LF !in payload
    ensures
      var tail := Encode(payload) + more;
      var c := NextCut(buf, s + tail);
      c.Some? && (Glued(buf + s, c.value, payload, more) || c.value == Cut(buf + s, false, tail))
    decreases |s|
  {
    hide *;
    var tail := Encode(payload) + more;
    if LF !in s {
      GlueAtOnce(buf, s, payload, more);
    } else {
      var line, rest := SplitAtLF(buf, s, tail);
      FirstLine(line, rest);
      FirstLine(line, rest + tail);
      CutUnfold(buf, s);
      CutUnfold(buf, s + tail);
      if !(Blank(line + [LF]) && buf != []) {
        GlueAfter(buf + (line + [LF]), rest, payload, more);
      } else {
        assert rest == [];
        assert rest + tail == tail;
      }
    }
  }

  /** An oversized frame takes the first line of the event for the rest of the line
      that went over the cap. */
  lemma {:induction false} OversizedGlue(buf: Bytes, s: Bytes, raw: Bytes, rest: Bytes, payload: Bytes, more: Bytes)
    requires |buf| <= MAX_FRAME_BYTES && NextCut(buf, s) == Some(Cut(raw, true, rest)) && LF !in payload
    ensures
      buf <= raw && NextCut(buf, raw[|buf|..] + (Encode(payload) + more)) == Some(Cut(raw, true, [LF] + more))
    decreases |s|
  {
    hide *;
    var tail := Encode(payload) + more;
    NothingIsNotOversized(buf);
    var n := LineLength(s);
    CutUnfold(buf, s);
    CutOver(buf, s);
    FullLinesCons(s);
    var line := s[..n];
    if |buf| + n > MAX_FRAME_BYTES {
      GlueToLine(buf, s, payload, more);
    } else {
      NothingIsNotOversized(buf + line);
      AllOf(s);
      LineIs(s);
      OversizedGlue(buf + line, s[n..], raw, rest, payload, more);
      var part, all := raw[|buf + line|..], raw[|buf|..] + tail;
      assert raw[|buf|..] == line + part;
      assert all == s[..n - 1] + [LF] + (part + tail);
      FirstLine(s[..n - 1], part + tail);
      CutUnfold(buf, all);
    }
  }

  lemma NothingIsNotOversized(buf: Bytes)
    requires |buf| <= MAX_FRAME_BYTES
    ensures NextCut(buf, []).Some? ==> !NextCut(buf, []).value.oversized
  {
  }

  lemma AllOf(s: Bytes)
    ensures s[|s|..] == []
  {
  }

  lemma LineIs(s: Bytes)
    requires LineLength(s) < |s|
    ensures s[..LineLength(s)] == s[..LineLength(s) - 1] + [LF] && LF !in s[..LineLength(s) - 1]
  {
  }

  lemma GlueToLine(buf: Bytes, s: Bytes, payload: Bytes, more: Bytes)
    requires |buf| <= MAX_FRAME_BYTES && LineLength(s) <= |s| && |buf| + LineLength(s) > MAX_FRAME_BYTES
    requires LF !in payload
    ensures
      var raw := (buf + s[..LineLength(s)])[..MAX_FRAME_BYTES];
      buf <= raw && NextCut(buf, raw[|buf|..] + (Encode(payload) + more)) == Some(Cut(raw, true, [LF] + more))
  {
    hide *;
    var raw := (buf + s[..LineLength(s)])[..MAX_FRAME_BYTES];
    var part := s[..MAX_FRAME_BYTES - |buf|];
    assert raw == buf + part;
    BeforeLineEnd(s, |part|);
    AfterPrefix(buf, part);
    GluedLine(part, payload, more);
    CutOver(buf, part + (Encode(payload) + more));
    assert (buf + (part + LineOf(payload) + [LF]))[..MAX_FRAME_BYTES] == raw;
  }

  lemma BeforeLineEnd(s: Bytes, k: nat)
    requires k < LineLength(s) <= |s|
    ensures LF !in s[..k]
  {
  }

  // ----- the data of what was glued ----------------------------------------

  lemma {:induction false} Untrimmed(a: Bytes, b: Bytes)
    requires TrimRight(b) != []
    ensures TrimRight(a + b) == a + TrimRight(b)
    decreases |b|
  {
    if IsSpace(b[|b| - 1]) {
      assert (a + b)[..|a + b| - 1] == a + b[..|b| - 1];
      Untrimmed(a, b[..|b| - 1]);
    }
  }

  lemma {:induction false} TrimmedAway(a: Bytes, b: Bytes)
    requires TrimRight(b) == []
    ensures TrimRight(a + b) == TrimRight(a)
    decreases |b|
  {
    if b == [] {
      assert a + b == a;
    } else {
      assert (a + b)[..|a + b| - 1] == a + b[..|b| - 1];
      TrimmedAway(a, b[..|b| - 1]);
    }
  }

  lemma {:induction false} LeftUntrimmed(a: Bytes, b: Bytes)
    requires TrimLeft(a) != []
    ensures TrimLeft(a + b) == TrimLeft(a) + b
    decreases |a|
  {
    if IsSpace(a[0]) {
      assert (a + b)[1..] == a[1..] + b;
      LeftUntrimmed(a[1..], b);
    }
  }

  /** A character that is not white space stays. */
  lemma {:induction false} StaysOnTheLeft(s: Bytes, c: Byte)
    requires c in s && !IsSpace(c)
    ensures c in TrimLeft(s)
  {
    if IsSpace(s[0]) {
      assert s == [s[0]] + s[1..];
      StaysOnTheLeft(s[1..], c);
    }
  }

  lemma {:induction false} StaysOnTheRight(s: Bytes, c: Byte)
    requires c in s && !IsSpace(c)
    ensures c in TrimRight(s)
  {
    if IsSpace(s[|s| - 1]) {
      assert s == s[..|s| - 1] + [s[|s| - 1]];
      StaysOnTheRight(s[..|s| - 1], c);
    }
  }

  /** Data with a d in it is not the end marker. */
  lemma NotDoneWithD(data: Bytes)
    requires 'd' in data
    ensures TrimSpace(data) != DONE
  {
    StaysOnTheLeft(data, 'd');
    StaysOnTheRight(TrimLeft(data), 'd');
  }

  /** Nor is data that goes on after another line with something in it. */
  lemma NotDoneWithMore(data: Bytes, value: Bytes)
    requires TrimSpace(data) != [] && TrimSpace(data) != DONE
    ensures TrimSpace(data + [LF] + value) != DONE
  {
    hide TrimLeft, TrimRight;
    TrimmedNothing();
    var left, more := TrimLeft(data), [LF] + value;
    assert data + [LF] + value == data + more;
    LeftUntrimmed(data, more);
    if TrimRight(value) == [] {
      TrimmedAway([LF], value);
      TrimmedAway(left, more);
    } else {
      Untrimmed([LF], value);
      Untrimmed(left, more);
      assert (left + ([LF] + TrimRight(value)))[|left|] == LF;
    }
  }

  lemma TrimmedNothing()
    ensures TrimLeft([]) == [] && TrimRight([]) == [] && TrimRight([LF]) == []
  {
    assert [LF][..0] == [];
  }

  function ValueOf(data: Option<Bytes>): Bytes {
    if data.None? then [] else data.value
  }

  /** The data says something that is not the end marker. */
  predicate Says(data: Option<Bytes>) {
    TrimSpace(ValueOf(data)) != [] && TrimSpace(ValueOf(data)) != DONE
  }

  predicate NotDone(data: Option<Bytes>) {
    TrimSpace(ValueOf(data)) != DONE
  }

  lemma DataPrefix(line: Bytes)
    ensures IsData(line) <==> DATA <= line
  {
    if DATA <= line {
      assert line[4] == ':';
      assert EndsInCR(line) ==> |line| > 5;
    }
  }

  /** A last line that takes part of an event. */
  lemma GluedData(data: Option<Bytes>, line: Bytes, q: Bytes)
    requires (q != [] ==> q[0] == 'd') && Says(Joined1(data, line))
    ensures NotDone(Joined1(data, line + q))
  {
    hide TrimSpace;
    DataPrefix(line);
    DataPrefix(line + q);
    if q == [] {
      assert line + q == line;
    } else if IsData(line) {
      GluedValue(line, q);
      NotDoneWithD(ValueOf(Joined1(data, line + q)));
    } else if IsData(line + q) {
      OnlyOnItsOwn(line, q);
      BlankIsNothing();
      NotDoneWithMore(data.value, Value(line + q));
    }
  }

  lemma BlankIsNothing()
    ensures TrimSpace([]) == []
  {
  }

  /** A line that is not data and takes part of an event becomes data only if it was
      empty. */
  lemma OnlyOnItsOwn(line: Bytes, q: Bytes)
    requires q != [] && q[0] == 'd' && DATA <= line + q
    ensures line == [] || DATA <= line
  {
    var all := line + q;
    assert all[|line|] == 'd';
    assert all[1] == 'a' && all[2] == 't' && all[3] == 'a' && all[4] == ':';
    if |line| >= 5 {
      assert all[..5] == line[..5] == DATA;
    }
  }

  lemma GluedValue(line: Bytes, q: Bytes)
    requires IsData(line) && q != [] && q[0] == 'd'
    ensures IsData(line + q) && 'd' in Value(line + q)
  {
    DataPrefix(line);
    DataPrefix(line + q);
    var l := TrimCR(line + q);
    assert (line + q)[|line|] == 'd';
    assert |l| > |line| && l[|line|] == 'd';
    assert l[|DATA|..][|line| - |DATA|] == 'd';
  }

  /** The lines of a last line and part of an event. */
  lemma GluedLines(line: Bytes, payload: Bytes, p: Bytes, data: Option<Bytes>) returns (q: Bytes)
    requires LF !in line && LF !in payload && p <= Encode(payload)
    ensures (q != [] ==> q[0] == 'd') && Joined(data, Lines(line + p)) == Joined1(data, line + q)
  {
    hide *;
    var n := |payload| + 6;
    LineIsData(payload);
    NoLines();
    if |p| <= n {
      q := p;
      assert p == LineOf(payload)[..|p|];
      NoLF(line + p);
      LastLine(line + p);
      FirstOfLines([line + p], 0, data, []);
      assert [line + p][1..] == [];
    } else {
      q := LineOf(payload);
      var first, rest := line + q, p[n + 1..];
      assert p == q + [LF] + rest && rest <= [LF];
      assert line + p == first + [LF] + rest;
      FirstLineOf(first, rest);
      FirstOfLines([first] + Lines(rest), 0, data, []);
      assert ([first] + Lines(rest))[1..] == Lines(rest);
      NoData(rest, Joined1(data, first));
    }
  }

  lemma FirstLineOf(line: Bytes, rest: Bytes)
    requires LF !in line
    ensures Lines(line + [LF] + rest) == [line] + Lines(rest)
  {
    hide *;
    var s := line + [LF] + rest;
    assert s[|line|] == LF && forall j :: 0 <= j < |line| ==> s[j] == line[j];
    LinesAt(s, |line|);
    assert s[..|line|] == line && s[|line| + 1..] == rest;
  }

  lemma NoData(rest: Bytes, data: Option<Bytes>)
    requires rest <= [LF]
    ensures Joined(data, Lines(rest)) == data
  {
    if rest == [LF] {
      LinesOfLF();
      var e: seq<Bytes> := [[], []];
      assert e[1..] == [[]];
    } else {
      LastLine([]);
    }
    assert !IsData([]);
  }

  /** A frame with data that says something does not become the end marker by taking
      part of an event, be it the end marker itself. */
  lemma {:induction false} TakingPart(data: Option<Bytes>, raw: Bytes, payload: Bytes, p: Bytes)
    requires LF !in payload && p <= Encode(payload) && Says(Joined(data, Lines(raw)))
    ensures NotDone(Joined(data, Lines(raw + p)))
    decreases |raw|
  {
    hide *;
    NoLines();
    if LF !in raw {
      NoLF(raw);
      LastLine(raw);
      FirstOfLines([raw], 0, data, []);
      assert [raw][1..] == [];
      var q := GluedLines(raw, payload, p, data);
      GluedData(data, raw, q);
    } else {
      HasLF(raw);
      var line, rest := raw[..FirstLF(raw)], raw[FirstLF(raw) + 1..];
      assert raw == line + [LF] + rest && raw + p == line + [LF] + (rest + p);
      FirstLineOf(line, rest);
      FirstLineOf(line, rest + p);
      FirstOfLines([line] + Lines(rest), 0, data, []);
      FirstOfLines([line] + Lines(rest + p), 0, data, []);
      assert ([line] + Lines(rest))[1..] == Lines(rest) && ([line] + Lines(rest + p))[1..] == Lines(rest + p);
      TakingPart(Joined1(data, line), rest, payload, p);
    }
  }
}
