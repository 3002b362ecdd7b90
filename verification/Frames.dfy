/** The frame parser of a relayed event stream, and what its frames add up to. */
module Frames {
  import opened Basics

  type Byte = c: char | c as int < 256 witness 'a'
  type Bytes = seq<Byte>

  const LF: Byte := '\n'
  const CR: Byte := '\r'
  const DATA: Bytes := "data:"
  const EVENT: Bytes := "event:"
  const DONE: Bytes := "[DONE]"
  const MAX_FRAME_BYTES: nat := 1048576

  // ----- lines -------------------------------------------------------------

  /** Where the first LF is, or the length if there is none. */
  function FirstLF(s: Bytes): (i: nat)
    ensures i <= |s| && (i < |s| ==> s[i] == LF) && forall j :: 0 <= j < i ==> s[j] != LF
  {
    if s == [] || s[0] == LF then 0 else 1 + FirstLF(s[1..])
  }

  /** How long the first line is, with the LF that ends it. */
  function LineLength(s: Bytes): nat {
    Min(FirstLF(s) + 1, |s|)
  }

  function Min(a: nat, b: nat): nat {
    if a < b then a else b
  }

  /** The pieces between the LFs; there is one more of them than LFs. */
  function Lines(s: Bytes): seq<Bytes> {
    var i := FirstLF(s);
    if i == |s| then [s] else [s[..i]] + Lines(s[i + 1..])
  }

  predicate EndsInCR(line: Bytes) {
    line != [] && line[|line| - 1] == CR
  }

  function TrimCR(line: Bytes): Bytes {
    if EndsInCR(line) then line[..|line| - 1] else line
  }

  predicate Blank(line: Bytes) {
    forall i :: 0 <= i < |line| ==> line[i] == LF || line[i] == CR
  }

  // ----- the fields of a frame ---------------------------------------------

  predicate IsData(line: Bytes) {
    DATA <= TrimCR(line)
  }

  predicate IsEvent(line: Bytes) {
    EVENT <= TrimCR(line)
  }

  function DropSpace(value: Bytes): Bytes {
    if value != [] && value[0] == ' ' then value[1..] else value
  }

  function Value(line: Bytes): Bytes
    requires IsData(line)
  {
    DropSpace(TrimCR(line)[|DATA|..])
  }

  /** The data field: nothing if no line carries one, and otherwise the values
      joined by LFs. */
  function Joined(data: Option<Bytes>, lines: seq<Bytes>): Option<Bytes>
    decreases |lines|
  {
    if lines == [] then data else Joined(Joined1(data, lines[0]), lines[1..])
  }

  function Joined1(data: Option<Bytes>, line: Bytes): Option<Bytes> {
    if !IsData(line) then data
    else if data.None? then Some(Value(line))
    else Some(data.value + [LF] + Value(line))
  }

  predicate IsSpace(c: Byte) {
    c == ' ' || c == '\t' || c == LF || c == CR || c == '\U{0b}' || c == '\U{0c}'
  }

  function TrimLeft(s: Bytes): Bytes {
    if s != [] && IsSpace(s[0]) then TrimLeft(s[1..]) else s
  }

  function TrimRight(s: Bytes): Bytes {
    if s != [] && IsSpace(s[|s| - 1]) then TrimRight(s[..|s| - 1]) else s
  }

  function TrimSpace(s: Bytes): Bytes {
    TrimRight(TrimLeft(s))
  }

  function LastEvent(event: Bytes, lines: seq<Bytes>): Bytes
    decreases |lines|
  {
    if lines == [] then event else LastEvent(if IsEvent(lines[0]) then EventOf(lines[0]) else event, lines[1..])
  }

  function EventOf(line: Bytes): Bytes
    requires IsEvent(line)
  {
    TrimSpace(TrimCR(line)[|EVENT|..])
  }

  // ----- what joining does to the bytes it reads ---------------------------

  /** Joining a second data line to the first appends in place. The slice of the
      first ends at its line, so the only room it has is a CR that was trimmed
      off: that is the byte that is overwritten. */
  function Overwritten(lines: seq<Bytes>, start: nat): Option<nat>
    decreases |lines|
  {
    if lines == [] then None
    else if !IsData(lines[0]) then Overwritten(lines[1..], start + |lines[0]| + 1)
    else if EndsInCR(lines[0]) && SomeData(lines[1..]) then Some(start + |lines[0]| - 1)
    else None
  }

  predicate SomeData(lines: seq<Bytes>) {
    exists l :: l in lines && IsData(l)
  }

  predicate Spoiled(raw: Bytes) {
    Overwritten(Lines(raw), 0).Some?
  }

  /** The bytes of a frame as they are handed on. */
  function HandedOn(raw: Bytes): (r: Bytes)
    ensures |r| == |raw|
    ensures r == raw <==> !Spoiled(raw)
  {
    OverwrittenIsCR(raw, 0);
    var p := Overwritten(Lines(raw), 0);
    if p.None? then raw else raw[p.value := LF]
  }

  lemma {:induction false} OverwrittenIsCR(s: Bytes, start: nat)
    ensures
      var p := Overwritten(Lines(s), start);
      p.Some? ==> start <= p.value < start + |s| && s[p.value - start] == CR
    decreases |s|
  {
    hide IsData, SomeData, Lines, FirstLF;
    assert s[0..] == s;
    NextLine(s, Lines(s), 0);
    if !IsData(Lines(s)[0]) && |Lines(s)[0]| < |s| {
      OverwrittenIsCR(s[|Lines(s)[0]| + 1..], start + |Lines(s)[0]| + 1);
    }
  }

  lemma FirstOf(s: Bytes)
    ensures Lines(s) != [] && |Lines(s)[0]| <= |s| && Lines(s)[0] == s[..|Lines(s)[0]|]
    ensures Lines(s)[1..] == if |Lines(s)[0]| < |s| then Lines(s[|Lines(s)[0]| + 1..]) else []
  {
  }

  /** The first of the lines from `start` on, and the ones after it. */
  lemma NextLine(s: Bytes, left: seq<Bytes>, start: nat)
    requires start <= |s| && left == Lines(s[start..])
    ensures left != [] && start + |left[0]| <= |s| && left[0] == s[start..start + |left[0]|]
    ensures left[1..] == if start + |left[0]| < |s| then Lines(s[start + |left[0]| + 1..]) else []
  {
    hide Lines, FirstLF;
    var t := s[start..];
    FirstOf(t);
    var n := |left[0]|;
    assert t[..n] == s[start..start + n];
    if n < |t| {
      assert t[n + 1..] == s[start + n + 1..];
    }
  }

  lemma HandedOnIs(raw: Bytes)
    ensures
      var p := Overwritten(Lines(raw), 0);
      p.Some? ==> p.value < |raw|
    ensures
      var p := Overwritten(Lines(raw), 0);
      HandedOn(raw) == if p.None? then raw else raw[p.value := LF]
  {
    OverwrittenIsCR(raw, 0);
  }

  lemma NoLines()
    ensures forall data :: Joined(data, []) == data
    ensures forall event :: LastEvent(event, []) == event
    ensures forall start :: Overwritten([], start) == None
    ensures !SomeData([])
  {
  }

  /** What one line adds to each of the fields. */
  lemma FirstOfLines(left: seq<Bytes>, start: nat, data: Option<Bytes>, event: Bytes)
    requires left != []
    ensures IsData(left[0]) ==> !IsEvent(left[0])
    ensures !IsData(left[0]) ==> Joined1(data, left[0]) == data
    ensures Joined(data, left) == Joined(Joined1(data, left[0]), left[1..])
    ensures LastEvent(event, left) == LastEvent(if IsEvent(left[0]) then EventOf(left[0]) else event, left[1..])
    ensures |TrimCR(left[0])| == |left[0]| - (if EndsInCR(left[0]) then 1 else 0)
    ensures Overwritten(left, start)
         == if !IsData(left[0]) then Overwritten(left[1..], start + |left[0]| + 1)
            else if EndsInCR(left[0]) && SomeData(left[1..]) then Some(start + |left[0]| - 1)
            else None
    ensures SomeData(left) <==> IsData(left[0]) || SomeData(left[1..])
  {
    assert DATA[0] != EVENT[0];
    assert left == [left[0]] + left[1..];
  }

  datatype Frame = Frame(raw: Bytes, event: Bytes, data: Option<Bytes>, oversized: bool)

  predicate IsDone(f: Frame) {
    TrimSpace(if f.data.None? then [] else f.data.value) == DONE
  }

  // ----- cutting the stream ------------------------------------------------

  /** The bytes of one frame, and what is left of the stream. */
  datatype Cut = Cut(raw: Bytes, oversized: bool, rest: Bytes)

  function NextCut(buf: Bytes, s: Bytes): Option<Cut>
    requires |buf| <= MAX_FRAME_BYTES
    decreases |s|
  {
    if s == [] then
      if buf == [] then None else Some(Cut(buf, false, []))
    else
      var line, rest := s[..LineLength(s)], s[LineLength(s)..];
      if |buf| + |line| > MAX_FRAME_BYTES then
        Some(Cut((buf + line)[..MAX_FRAME_BYTES], true, rest))
      else if Blank(line) && buf != [] then
        Some(Cut(buf + line, false, rest))
      else
        NextCut(buf + line, rest)
  }

  function FrameOf(c: Cut): Frame {
    Frame(HandedOn(c.raw), LastEvent([], Lines(c.raw)), Joined(None, Lines(c.raw)), c.oversized)
  }

  // ----- the reader --------------------------------------------------------

  /** A Go slice: elements lo up to hi of an array, with room up to cap. */
  datatype Slice = Slice(of: array<Byte>, lo: nat, hi: nat, cap: nat)

  ghost predicate ValidSlice(s: Slice) {
    s.lo <= s.hi <= s.cap <= s.of.Length
  }

  function View(s: Option<Slice>): Option<Bytes>
    requires s.Some? ==> ValidSlice(s.value)
    reads if s.Some? then {s.value.of} else {}
  {
    if s.None? then None else Some(s.value.of[s.value.lo..s.value.hi])
  }

  /** Where the bytes of a frame stand after some of its data lines, `joins` of
      them, with the lines of `left` to come: `own` if the data so far is still a
      slice of the frame, ending at `hi` with room up to `cap`. */
  ghost predicate Joining(buf: Bytes, raw: Bytes, left: seq<Bytes>, start: nat, joins: nat,
                          own: bool, hi: nat, cap: nat)
  {
    var over := Overwritten(Lines(buf), 0);
    && (joins == 0 ==> raw == buf && Overwritten(left, start) == over)
    && (joins == 1 ==> raw == buf && own && hi <= cap <= hi + 1
                       && over == if cap == hi + 1 && SomeData(left) then Some(hi) else None)
    && (joins > 1 ==> raw == HandedOn(buf) && (own ==> cap == hi))
  }

  lemma Starts(buf: Bytes)
    ensures Joining(buf, buf, Lines(buf), 0, 0, false, 0, 0)
  {
  }

  lemma JoiningEnds(buf: Bytes, raw: Bytes, start: nat, joins: nat, own: bool, hi: nat, cap: nat)
    requires Joining(buf, raw, [], start, joins, own, hi, cap)
    ensures raw == HandedOn(buf)
  {
  }

  lemma JoiningPasses(buf: Bytes, raw: Bytes, left: seq<Bytes>, start: nat, joins: nat, own: bool, hi: nat, cap: nat)
    requires Joining(buf, raw, left, start, joins, own, hi, cap) && left != [] && !IsData(left[0])
    ensures Joining(buf, raw, left[1..], start + |left[0]| + 1, joins, own, hi, cap)
  {
    hide IsData, HandedOn;
    FirstOfLines(left, start, None, []);
  }

  /** The first data line leaves the bytes alone; the second overwrites what there
      is room for; the later ones find no room. */
  lemma JoiningTakes(buf: Bytes, raw: Bytes, raw': Bytes, left: seq<Bytes>, start: nat, joins: nat,
                     own: bool, hi: nat, cap: nat, own': bool, hi': nat, cap': nat)
    requires Joining(buf, raw, left, start, joins, own, hi, cap) && left != [] && IsData(left[0]) && |raw| == |buf|
    requires joins == 0 ==> raw' == raw && own' && hi' == start + |TrimCR(left[0])| && cap' == start + |left[0]|
    requires joins > 0 && own && cap == hi + 1 ==> hi < |raw| && raw' == raw[hi := LF]
    requires joins > 0 && !(own && cap == hi + 1) ==> raw' == raw
    requires joins > 0 ==> (own && own' ==> cap' == hi') && (!own ==> !own')
    ensures Joining(buf, raw', left[1..], start + |left[0]| + 1, joins + 1, own', hi', cap')
  {
    hide IsData, HandedOn;
    FirstOfLines(left, start, None, []);
    OverwrittenIsCR(buf, 0);
    HandedOnIs(buf);
  }

  method CopyInto(a: array<Byte>, at: nat, x: Bytes)
    requires at + |x| <= a.Length
    modifies a
    ensures a[..] == old(a[..at]) + x + old(a[at + |x|..])
  {
    for i := 0 to |x|
      invariant forall j :: 0 <= j < i ==> a[at + j] == x[j]
      invariant forall j :: 0 <= j < a.Length && !(at <= j < at + i) ==> a[j] == old(a[j])
    {
      a[at + i] := x[i];
    }
  }

  method Append(s: Slice, x: Bytes) returns (r: Slice)
    requires ValidSlice(s)
    modifies s.of
    ensures ValidSlice(r) && r.of[r.lo..r.hi] == old(s.of[s.lo..s.hi]) + x
    ensures s.hi + |x| <= s.cap ==>
      && r == s.(hi := s.hi + |x|)
      && s.of[..] == old(s.of[..s.hi]) + x + old(s.of[s.hi + |x|..])
    ensures s.hi + |x| > s.cap ==> fresh(r.of) && s.of[..] == old(s.of[..])
  {
    if s.hi + |x| <= s.cap {
      ghost var before := s.of[..];
      CopyInto(s.of, s.hi, x);
      assert s.of[s.lo..s.hi] == before[s.lo..s.hi] && s.of[s.hi..s.hi + |x|] == x;
      r := Slice(s.of, s.lo, s.hi + |x|, s.cap);
    } else {
      var spare: nat :| true;
      var a := Grown(s.of[s.lo..s.hi] + x, spare);
      assert |s.of[s.lo..s.hi] + x| == s.hi - s.lo + |x|;
      r := Slice(a, 0, s.hi - s.lo + |x|, a.Length);
    }
  }

  method Grown(x: Bytes, spare: nat) returns (a: array<Byte>)
    ensures fresh(a) && a.Length == |x| + spare && a[..|x|] == x
  {
    a := new Byte[|x| + spare](i => 'a');
    for i := 0 to |x|
      invariant a[..i] == x[..i]
    {
      a[i] := x[i];
    }
  }

  /** Appends an LF and then a value. */
  method Join(s: Slice, value: Bytes) returns (r: Slice)
    requires ValidSlice(s)
    modifies s.of
    ensures ValidSlice(r) && r.of[r.lo..r.hi] == old(s.of[s.lo..s.hi]) + [LF] + value
    ensures fresh(r.of) || (r.of == s.of && r.cap == s.cap)
    ensures s.cap == s.hi ==> fresh(r.of) && s.of[..] == old(s.of[..])
    ensures s.cap == s.hi + 1 ==> s.of[..] == old(s.of[..])[s.hi := LF] && (r.of == s.of ==> r.cap == r.hi)
  {
    r := Append(s, [LF]);
    r := Append(r, value);
  }

  /** A value ends where its line does, but for a CR. */
  lemma ValueEnds(line: Bytes)
    requires IsData(line)
    ensures |DropSpace(TrimCR(line)[|DATA|..])| <= |TrimCR(line)| <= |line|
    ensures
      var n, value := |TrimCR(line)|, DropSpace(TrimCR(line)[|DATA|..]);
      line[n - |value|..n] == value
  {
  }

  lemma SliceOfSlice(s: Bytes, i: nat, j: nat, a: nat, b: nat)
    requires i <= j <= |s| && a <= b <= j - i
    ensures s[i..j][a..b] == s[i + a..i + b]
  {
    forall k | 0 <= k < b - a
      ensures s[i..j][a..b][k] == s[i + a..i + b][k]
    {
    }
  }

  /** One more data line of `raw`, from `start` on: a slice of it if it is the
      first, and joined to what there is if not. */
  method Extended(raw: array<Byte>, data: Option<Slice>, line: Bytes, start: nat) returns (r: Slice)
    requires IsData(line) && start + |line| <= raw.Length && raw[start..start + |line|] == line
    requires data.Some? ==> ValidSlice(data.value) && (data.value.of == raw ==> data.value.cap <= data.value.hi + 1)
    modifies if data.Some? then {data.value.of} else {}
    ensures ValidSlice(r) && Some(r.of[r.lo..r.hi]) == Joined1(old(View(data)), line)
    ensures data.None? ==>
      r.of == raw && r.hi == start + |TrimCR(line)| && r.cap == start + |line| && raw[..] == old(raw[..])
    ensures data.Some? ==>
      && (fresh(r.of) || (r.of == data.value.of && r.cap == data.value.cap))
      && (data.value.of == raw && r.of == raw ==> r.cap == r.hi)
      && raw[..] == if data.value.of == raw && data.value.cap == data.value.hi + 1
                    then old(raw[..])[data.value.hi := LF] else old(raw[..])
  {
    var trimmed := TrimCR(line);
    var value := DropSpace(trimmed[|DATA|..]);
    if data.None? {
      var end := start + |trimmed|;
      ValueEnds(line);
      SliceOfSlice(raw[..], start, start + |line|, |trimmed| - |value|, |trimmed|);
      r := Slice(raw, end - |value|, end, start + |line|);
    } else {
      r := Join(data.value, value);
    }
  }

  /** How far a buffer of bytes has been parsed: `left` are the lines from `start`
      on, and `data` is joined from `joins` lines. */
  ghost predicate Parsing(buf: Bytes, raw: array<Byte>, left: seq<Bytes>, start: nat,
                          data: Option<Slice>, event: Bytes, joins: nat)
    reads raw, if data.Some? then {data.value.of} else {}
  {
    && raw.Length == |buf|
    && (start <= |buf| ==> left == Lines(buf[start..])) && (start > |buf| ==> start == |buf| + 1 && left == [])
    && (forall i :: start <= i < |buf| ==> raw[i] == buf[i])
    && LastEvent(event, left) == LastEvent([], Lines(buf))
    && (data.None? <==> joins == 0)
    && (data.Some? ==> ValidSlice(data.value))
    && (data.Some? && data.value.of == raw ==> data.value.cap < start && data.value.cap <= data.value.hi + 1)
    && Joined(View(data), left) == Joined(None, Lines(buf))
    && if data.None? then Joining(buf, raw[..], left, start, joins, false, 0, 0)
       else Joining(buf, raw[..], left, start, joins, data.value.of == raw, data.value.hi, data.value.cap)
  }

  lemma ParsingStarts(buf: Bytes, raw: array<Byte>)
    requires raw[..] == buf
    ensures Parsing(buf, raw, Lines(buf), 0, None, [], 0)
  {
    hide Lines, LastEvent, Joined, Joining;
    assert buf[0..] == buf;
    Starts(buf);
  }

  lemma ParsingEnds(buf: Bytes, raw: array<Byte>, start: nat, data: Option<Slice>, event: Bytes, joins: nat)
    requires Parsing(buf, raw, [], start, data, event, joins)
    ensures raw[..] == HandedOn(buf) && event == LastEvent([], Lines(buf))
    ensures data.Some? ==> ValidSlice(data.value)
    ensures View(data) == Joined(None, Lines(buf))
  {
    hide Lines, LastEvent, Joined, Joining, HandedOn;
    NoLines();
    if data.None? {
      JoiningEnds(buf, raw[..], start, joins, false, 0, 0);
    } else {
      JoiningEnds(buf, raw[..], start, joins, data.value.of == raw, data.value.hi, data.value.cap);
    }
  }

  /** A line that is not data may name the event. */
  lemma ParsingPasses(buf: Bytes, raw: array<Byte>, left: seq<Bytes>, start: nat,
                      data: Option<Slice>, event: Bytes, joins: nat)
    requires Parsing(buf, raw, left, start, data, event, joins) && left != [] && !IsData(left[0])
    ensures Parsing(buf, raw, left[1..], start + |left[0]| + 1, data,
              if IsEvent(left[0]) then EventOf(left[0]) else event, joins)
  {
    hide Lines, LastEvent, Joined, Joined1, Joining, Overwritten, SomeData, TrimCR, EndsInCR, IsData, IsEvent, EventOf;
    NextLine(buf, left, start);
    FirstOfLines(left, start, View(data), event);
    if data.None? {
      JoiningPasses(buf, raw[..], left, start, joins, false, 0, 0);
    } else {
      JoiningPasses(buf, raw[..], left, start, joins, data.value.of == raw, data.value.hi, data.value.cap);
    }
  }

  /** A data line is joined to what there is. */
  method TakeData(buf: Bytes, raw: array<Byte>, left: seq<Bytes>, start: nat,
                  data: Option<Slice>, ghost event: Bytes, ghost joins: nat)
      returns (extended: Slice)
    requires Parsing(buf, raw, left, start, data, event, joins) && left != [] && IsData(left[0])
    modifies if data.Some? then {data.value.of} else {}
    ensures extended.of == raw || fresh(extended.of) || (data.Some? && extended.of == data.value.of)
    ensures Parsing(buf, raw, left[1..], start + |left[0]| + 1, Some(extended), event, joins + 1)
  {
    hide Lines, LastEvent, Joined, Joined1, Joining, Overwritten, SomeData, TrimCR, EndsInCR, IsData, IsEvent, EventOf;
    NextLine(buf, left, start);
    assert raw[start..start + |left[0]|] == left[0];
    ghost var before, was := raw[..], View(data);
    ghost var own, hi, cap := data.Some? && data.value.of == raw, 0, 0;
    if data.Some? {
      hi, cap := data.value.hi, data.value.cap;
    }
    extended := Extended(raw, data, left[0], start);
    ParsingTakes(buf, raw, before, left, start, was, own, hi, cap, extended, event, joins);
  }

  /** What joining one more line leaves, `before` being the bytes as they were. */
  lemma ParsingTakes(buf: Bytes, raw: array<Byte>, before: Bytes, left: seq<Bytes>, start: nat, was: Option<Bytes>,
                     own: bool, hi: nat, cap: nat, extended: Slice, event: Bytes, joins: nat)
    requires left != [] && IsData(left[0]) && start <= |buf| && left == Lines(buf[start..])
    requires raw.Length == |before| == |buf| && forall i :: start <= i < |buf| ==> before[i] == buf[i]
    requires LastEvent(event, left) == LastEvent([], Lines(buf)) && Joined(was, left) == Joined(None, Lines(buf))
    requires Joining(buf, before, left, start, joins, own, hi, cap) && (joins > 0 && own ==> hi <= cap < start)
    requires ValidSlice(extended) && View(Some(extended)) == Joined1(was, left[0])
    requires joins == 0 ==>
      extended.of == raw && extended.hi == start + |TrimCR(left[0])| && extended.cap == start + |left[0]|
    requires joins > 0 && extended.of == raw ==> own && extended.cap == extended.hi == cap
    requires raw[..] == if joins > 0 && own && cap == hi + 1 && hi < |before| then before[hi := LF] else before
    ensures Parsing(buf, raw, left[1..], start + |left[0]| + 1, Some(extended), event, joins + 1)
  {
    hide Lines, LastEvent, Joined, Joined1, Joining, Overwritten, SomeData, TrimCR, EndsInCR, IsData, IsEvent, EventOf;
    NextLine(buf, left, start);
    FirstOfLines(left, start, was, event);
    JoiningTakes(buf, before, raw[..], left, start, joins, own, hi, cap,
      extended.of == raw, extended.hi, extended.cap);
  }

  datatype Read = Got(frame: Frame) | EndOfFile | Broken

  class FrameReader {
    /** What the provider has yet to send, and whether the stream then ends or
        breaks. */
    var input: Bytes
    const breaks: bool
    var buf: Bytes

    constructor (input: Bytes, breaks: bool)
      ensures this.input == input && this.breaks == breaks
    {
      this.input, this.breaks, buf := input, breaks, [];
    }

    method Next() returns (r: Read)
      modifies this
      ensures match NextCut([], old(input))
              case None => input == [] && r == if breaks then Broken else EndOfFile
              case Some(c) => input == c.rest && r == Got(FrameOf(c))
    {
      buf := [];
      while true
        invariant |buf| <= MAX_FRAME_BYTES && NextCut(buf, input) == NextCut([], old(input))
        decreases |input|
      {
        var line := ReadLine();
        if line == [] {
          if buf != [] {
            var f := Parse(false);
            return Got(f);
          }
          return if breaks then Broken else EndOfFile;
        }
        if |buf| + |line| > MAX_FRAME_BYTES {
          assert buf + line[..MAX_FRAME_BYTES - |buf|] == (buf + line)[..MAX_FRAME_BYTES];
          buf := buf + line[..MAX_FRAME_BYTES - |buf|];
          var f := Parse(true);
          return Got(f);
        }
        var first := buf == [];
        buf := buf + line;
        if Blank(line) && !first {
          var f := Parse(false);
          return Got(f);
        }
      }
    }

    method ReadLine() returns (line: Bytes)
      modifies this`input
      ensures line == old(input)[..LineLength(old(input))] && input == old(input)[LineLength(old(input))..]
      ensures old(input) == [] <==> line == []
    {
      line, input := input[..LineLength(input)], input[LineLength(input)..];
    }

    /** The frame in the buffer: its fields are slices of its bytes. */
    method Parse(oversized: bool) returns (f: Frame)
      ensures f == Frame(HandedOn(buf), LastEvent([], Lines(buf)), Joined(None, Lines(buf)), oversized)
    {
      hide *;
      var raw := Grown(buf, 0);
      var left, start: nat := Lines(buf), 0;
      var data: Option<Slice> := None;
      var event: Bytes := [];
      ghost var joins: nat := 0;
      ParsingStarts(buf, raw);
      while left != []
        invariant fresh(raw) && (data.Some? ==> fresh(data.value.of))
        invariant Parsing(buf, raw, left, start, data, event, joins)
        decreases |left|
      {
        if IsData(left[0]) {
          var extended := TakeData(buf, raw, left, start, data, event, joins);
          data := Some(extended);
          joins := joins + 1;
        } else {
          ParsingPasses(buf, raw, left, start, data, event, joins);
          if IsEvent(left[0]) {
            event := EventOf(left[0]);
          }
        }
        start := start + |left[0]| + 1;
        left := left[1..];
      }
      ParsingEnds(buf, raw, start, data, event, joins);
      f := Frame(raw[..], event, View(data), oversized);
    }
  }
}
