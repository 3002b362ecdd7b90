/** White space, the end marker and the cap, in terms of the bytes alone. */
module FrameText {
  import opened Basics
  import opened Frames
  import opened FrameLaws
  import Gluing

  predicate IsWhite(c: Byte) {
    c in " \t\n\r\U{0b}\U{0c}"
  }

  predicate White(s: Bytes) {
    forall i :: 0 <= i < |s| ==> IsWhite(s[i])
  }

  predicate Bare(s: Bytes) {
    s != [] ==> !IsWhite(s[0]) && !IsWhite(s[|s| - 1])
  }

  lemma WhiteIsSpace(c: Byte)
    ensures IsSpace(c) <==> IsWhite(c)
  {
  }

  /** Trimming takes away the white space at both ends, all of it and nothing else. */
  lemma {:induction false} LeftTrimmed(s: Bytes) returns (a: Bytes)
    ensures s == a + TrimLeft(s) && White(a) && (TrimLeft(s) != [] ==> !IsWhite(TrimLeft(s)[0]))
    decreases |s|
  {
    hide IsSpace, IsWhite;
    a := [];
    if s != [] {
      WhiteIsSpace(s[0]);
    }
    if s != [] && IsSpace(s[0]) {
      var rest := LeftTrimmed(s[1..]);
      a := [s[0]] + rest;
      assert s == [s[0]] + s[1..];
    }
  }

  lemma {:induction false} RightTrimmed(s: Bytes) returns (b: Bytes)
    ensures s == TrimRight(s) + b && White(b)
    ensures TrimRight(s) != [] ==> !IsWhite(TrimRight(s)[|TrimRight(s)| - 1]) && TrimRight(s)[0] == s[0]
    decreases |s|
  {
    hide IsSpace, IsWhite;
    b := [];
    if s != [] {
      WhiteIsSpace(s[|s| - 1]);
    }
    if s != [] && IsSpace(s[|s| - 1]) {
      var rest := RightTrimmed(s[..|s| - 1]);
      b := rest + [s[|s| - 1]];
      assert s == s[..|s| - 1] + [s[|s| - 1]];
    }
  }

  lemma Trimmed(s: Bytes) returns (a: Bytes, b: Bytes)
    ensures s == a + TrimSpace(s) + b && White(a) && White(b) && Bare(TrimSpace(s))
  {
    hide TrimLeft, TrimRight, White, IsWhite;
    a := LeftTrimmed(s);
    b := RightTrimmed(TrimLeft(s));
  }

  lemma {:induction false} LeftDrops(a: Bytes, s: Bytes)
    requires White(a) && s != [] && !IsWhite(s[0])
    ensures TrimLeft(a + s) == s
    decreases |a|
  {
    hide IsSpace, IsWhite;
    WhiteIsSpace((a + s)[0]);
    if a == [] {
      assert a + s == s;
    } else {
      assert (a + s)[0] == a[0] && (a + s)[1..] == a[1..] + s;
      LeftDrops(a[1..], s);
    }
  }

  lemma {:induction false} RightDrops(s: Bytes, b: Bytes)
    requires White(b) && s != [] && !IsWhite(s[|s| - 1])
    ensures TrimRight(s + b) == s
    decreases |b|
  {
    hide IsSpace, IsWhite;
    WhiteIsSpace((s + b)[|s + b| - 1]);
    if b == [] {
      assert s + b == s;
    } else {
      assert (s + b)[..|s + b| - 1] == s + b[..|b| - 1];
      RightDrops(s, b[..|b| - 1]);
    }
  }

  /** A frame is the end marker exactly if its data is the word in brackets, with white
      space around it at most. */
  lemma DoneExactly(f: Frame)
    ensures IsDone(f)
       <==> f.data.Some? && exists a: Bytes, b: Bytes :: White(a) && White(b) && f.data.value == a + "[DONE]" + b
  {
    hide TrimSpace, White;
    NothingTrimmed();
    if IsDone(f) {
      var a, b := Trimmed(f.data.value);
      assert f.data.value == a + "[DONE]" + b;
    }
    if f.data.Some? {
      if a: Bytes, b: Bytes :| White(a) && White(b) && f.data.value == a + "[DONE]" + b {
        TrimsToDone(a, b);
      }
    }
  }

  lemma NothingTrimmed()
    ensures TrimSpace([]) == [] && DONE == "[DONE]"
  {
  }

  lemma TrimsToDone(a: Bytes, b: Bytes)
    requires White(a) && White(b)
    ensures TrimSpace(a + "[DONE]" + b) == DONE
  {
    hide TrimLeft, TrimRight, White, IsSpace;
    var word: Bytes := "[DONE]";
    assert a + word + b == a + (word + b);
    LeftDrops(a, word + b);
    RightDrops(word, b);
  }

  /** A line is cut off exactly when it is longer than a mebibyte. */
  lemma OversizedExactly(s: Bytes)
    requires LF !in s && s != []
    ensures NextCut([], s)
         == Some(if |s| > 1048576 then Cut(s[..1048576], true, []) else Cut(s, false, []))
  {
    hide *;
    OneLine(s);
    CutUnfold([], s);
    Gluing.CutOver([], s);
    if |s| <= 1048576 {
      Gluing.CutAtEnd(s);
    }
    assert [] + s == s;
  }

  predicate OnlyEnds(line: Bytes) {
    forall b :: b in line ==> b == '\r' || b == '\n'
  }

  /** A frame ends at its first line, after those it begins with, of nothing but line
      ends, whether these are LF or CRLF; without one it runs to the end of the stream. */
  lemma EndsAtBlankLine(s: Bytes)
    requires NextCut([], s).Some? && !NextCut([], s).value.oversized
    ensures
      var c := NextCut([], s).value;
      var lines := FullLines(c.raw);
      && (forall i :: 0 < i < |lines| - 1 ==> !OnlyEnds(lines[i]))
      && (c.rest != [] ==> |lines| >= 2 && OnlyEnds(lines[|lines| - 1]))
  {
    hide FullLines, NextCut, Blank, OnlyEnds;
    NoFullLines();
    CutEndsWhereItShould([], s);
    var lines := FullLines(NextCut([], s).value.raw);
    forall i | 0 <= i < |lines|
      ensures Blank(lines[i]) <==> OnlyEnds(lines[i])
    {
      BlankIs(lines[i]);
    }
  }

  lemma BlankIs(line: Bytes)
    ensures Blank(line) <==> OnlyEnds(line)
  {
    assert forall i :: 0 <= i < |line| ==> line[i] in line;
  }

  lemma OneLine(s: Bytes)
    requires LF !in s
    ensures LineLength(s) == |s| && s[..|s|] == s && s[|s|..] == [] && MAX_FRAME_BYTES == 1048576
  {
    NoLF(s);
  }
}
