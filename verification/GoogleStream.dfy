/** The translator from generateContent frames to chat-completion chunks, against
    the translation of a whole response. */
module GoogleStream {
  import opened Basics
  import opened ChatClient
  import Normalise
  import PriceTable

  type Usage = Normalise.Payload<Normalise.GoogleUsage>

  datatype FunctionCall = FunctionCall(id: string, name: string, args: string)

  datatype Part = Part(text: string, call: Option<FunctionCall>)

  datatype Candidate = Candidate(parts: seq<Part>, finishReason: string)

  /** A frame that could be parsed. Its usage is absent, null, unreadable or given:
      the last three all count as a frame that carries usage. */
  datatype Frame = Frame(candidate: Option<Candidate>, usage: Option<Usage>, modelVersion: string, responseId: string)

  datatype State = State(
    id: string, model: string, lastUsage: Option<Usage>,
    sawFinishReason: bool, sentRole: bool, toolCalls: nat)

  const INITIAL: State := State("", "", None, false, false, 0)

  function FinishReason(toolCalls: nat, reason: string): string {
    if toolCalls > 0 then "tool_calls"
    else match reason
      case "STOP" => "stop"
      case "MAX_TOKENS" => "length"
      case "SAFETY" => "content_filter"
      case "RECITATION" => "content_filter"
      case "BLOCKLIST" => "content_filter"
      case "PROHIBITED_CONTENT" => "content_filter"
      case "SPII" => "content_filter"
      case _ => "stop"
  }

  function ArgsOf(call: FunctionCall): string {
    if call.args == "" then "{}" else call.args
  }

  // ----- one frame ---------------------------------------------------------

  function Noted(s: State, f: Frame): State {
    s.(id := if s.id == "" && f.responseId != "" then "chatcmpl-" + f.responseId else s.id,
       model := if f.modelVersion != "" then f.modelVersion else s.model,
       lastUsage := if f.usage.Some? then f.usage else s.lastUsage)
  }

  /** The first chunk of all announces the role. */
  function Emit(s: State, content: Option<string>, tool: Option<ToolDelta>, finish: Option<string>)
    : (State, seq<Chunk>)
  {
    (s.(sentRole := true), [Chunk(s.id, s.model, !s.sentRole, content, tool, finish)])
  }

  function PartStep(s: State, p: Part): (State, seq<Chunk>) {
    if p.call.Some? then
      var call := p.call.value;
      var (s', out) := Emit(s, None, Some(ToolDelta(s.toolCalls, Some((call.id, call.name)), ArgsOf(call))), None);
      (s'.(toolCalls := s.toolCalls + 1), out)
    else if p.text != "" then Emit(s, Some(p.text), None, None)
    else (s, [])
  }

  function PartsStep(s: State, parts: seq<Part>): (State, seq<Chunk>)
    decreases |parts|
  {
    if parts == [] then (s, [])
    else
      var (s1, front) := PartsStep(s, parts[..|parts| - 1]);
      var (s2, last) := PartStep(s1, parts[|parts| - 1]);
      (s2, front + last)
  }

  function FinishStep(s: State, reason: string): (State, seq<Chunk>) {
    if reason == "" then (s, [])
    else Emit(s.(sawFinishReason := true), None, None, Some(FinishReason(s.toolCalls, reason)))
  }

  function Step(s: State, f: Frame): (State, seq<Chunk>) {
    var s0 := Noted(s, f);
    if f.candidate.None? then (s0, [])
    else
      var (s1, parts) := PartsStep(s0, f.candidate.value.parts);
      var (s2, finish) := FinishStep(s1, f.candidate.value.finishReason);
      (s2, parts + finish)
  }

  class Translator {
    var id: string
    var model: string
    var lastUsage: Option<Usage>
    var sawFinishReason: bool
    var sentRole: bool
    var toolCalls: nat

    ghost function Contents(): State
      reads this
    {
      State(id, model, lastUsage, sawFinishReason, sentRole, toolCalls)
    }

    constructor ()
      ensures Contents() == INITIAL
    {
      id, model, lastUsage, sawFinishReason, sentRole, toolCalls := "", "", None, false, false, 0;
    }

    method Translate(parsed: Option<Frame>) returns (ok: bool, out: seq<Chunk>)
      modifies this
      ensures ok <==> parsed.Some?
      ensures ok ==> (Contents(), out) == Step(old(Contents()), parsed.value)
      ensures !ok ==> Contents() == old(Contents()) && out == []
    {
      hide PartStep, Emit, FinishReason;
      if parsed.None? {
        return false, [];
      }
      ok, out := true, [];
      var f := parsed.value;
      Note(f);
      if f.candidate.None? {
        return;
      }
      var parts := f.candidate.value.parts;
      ghost var s0 := Contents();
      for i := 0 to |parts|
        invariant (Contents(), out) == PartsStep(s0, parts[..i])
      {
        assert parts[..i + 1][..i] == parts[..i];
        var chunks := PassPart(parts[i]);
        out := out + chunks;
      }
      assert parts[..|parts|] == parts;
      if f.candidate.value.finishReason != "" {
        sawFinishReason := true;
        var chunks := Render(None, None, Some(FinishReason(toolCalls, f.candidate.value.finishReason)));
        out := out + chunks;
      } else {
        assert out + [] == out;
      }
    }

    method Note(f: Frame)
      modifies this
      ensures Contents() == Noted(old(Contents()), f)
    {
      if id == "" && f.responseId != "" {
        id := "chatcmpl-" + f.responseId;
      }
      if f.modelVersion != "" {
        model := f.modelVersion;
      }
      if f.usage.Some? {
        lastUsage := f.usage;
      }
    }

    method PassPart(p: Part) returns (out: seq<Chunk>)
      modifies this
      ensures (Contents(), out) == PartStep(old(Contents()), p)
    {
      out := [];
      if p.call.Some? {
        var call := p.call.value;
        var args := call.args;
        if args == "" {
          args := "{}";
        }
        out := Render(None, Some(ToolDelta(toolCalls, Some((call.id, call.name)), args)), None);
        toolCalls := toolCalls + 1;
      } else if p.text != "" {
        out := Render(Some(p.text), None, None);
      }
    }

    method Render(content: Option<string>, tool: Option<ToolDelta>, finish: Option<string>) returns (out: seq<Chunk>)
      modifies this`sentRole
      ensures (Contents(), out) == Emit(old(Contents()), content, tool, finish)
    {
      var role := false;
      if !sentRole {
        role := true;
        sentRole := true;
      }
      out := [Chunk(id, model, role, content, tool, finish)];
    }

    method UsageOf() returns (counts: PriceTable.Counts, reported: bool)
      ensures (counts, reported) == Reported(Contents())
    {
      if lastUsage.None? {
        return map[], false;
      }
      var outcome, n := Normalise.NormaliseGoogle(lastUsage.value);
      if outcome != Normalise.Read {
        return map[], false;
      }
      return n.counts, true;
    }

    method UsageChunk() returns (usage: Option<UsageBlock>)
      ensures usage == StreamedUsage(Contents())
    {
      hide Wrap;
      var counts, ok := UsageOf();
      if !ok {
        return None;
      }
      var cached := PriceTable.Count(counts, PriceTable.CachedRead);
      var prompt: int := Wrap(PriceTable.Count(counts, PriceTable.Input) + cached);
      var completion: int := PriceTable.Count(counts, PriceTable.Output);
      usage := Some(UsageBlock(prompt, completion, Wrap(prompt + completion)));
    }
  }

  // ----- runs --------------------------------------------------------------

  type Item = Option<Frame>

  function Next(s: State, item: Item): (State, seq<Chunk>) {
    if item.None? then (s, []) else Step(s, item.value)
  }

  function Run(s: State, items: seq<Item>): (State, seq<Chunk>)
    decreases |items|
  {
    if items == [] then (s, [])
    else
      var (s1, first) := Next(s, items[0]);
      var (s2, rest) := Run(s1, items[1..]);
      (s2, first + rest)
  }

  function AllParts(items: seq<Item>): seq<Part> {
    if items == [] then []
    else
      (if items[0].Some? && items[0].value.candidate.Some? then items[0].value.candidate.value.parts else [])
      + AllParts(items[1..])
  }

  // ----- the role ----------------------------------------------------------

  /** Of these chunks only the very first announces the role, if nothing has yet. */
  predicate RoleOnce(before: bool, chunks: seq<Chunk>, after: bool) {
    && (forall i :: 0 <= i < |chunks| ==> (chunks[i].role <==> i == 0 && !before))
    && (after <==> before || chunks != [])
  }

  lemma RoleOnceAppend(before: bool, a: seq<Chunk>, between: bool, b: seq<Chunk>, after: bool)
    requires RoleOnce(before, a, between) && RoleOnce(between, b, after)
    ensures RoleOnce(before, a + b, after)
  {
  }

  lemma {:induction false} PartsRoleOnce(s: State, parts: seq<Part>)
    ensures RoleOnce(s.sentRole, PartsStep(s, parts).1, PartsStep(s, parts).0.sentRole)
    decreases |parts|
  {
    hide RoleOnce;
    if parts == [] {
      NoneRoleOnce(s.sentRole);
    } else {
      var front, last := parts[..|parts| - 1], parts[|parts| - 1];
      PartsRoleOnce(s, front);
      var (s1, a) := PartsStep(s, front);
      OneRoleOnce(s1, last);
      RoleOnceAppend(s.sentRole, a, s1.sentRole, PartStep(s1, last).1, PartStep(s1, last).0.sentRole);
    }
  }

  lemma NoneRoleOnce(b: bool)
    ensures RoleOnce(b, [], b)
  {
  }

  lemma OneRoleOnce(s: State, p: Part)
    ensures RoleOnce(s.sentRole, PartStep(s, p).1, PartStep(s, p).0.sentRole)
  {
  }

  lemma StepRoleOnce(s: State, item: Item)
    ensures RoleOnce(s.sentRole, Next(s, item).1, Next(s, item).0.sentRole)
  {
    hide RoleOnce, PartsStep;
    NoneRoleOnce(s.sentRole);
    if item.Some? && item.value.candidate.Some? {
      var c := item.value.candidate.value;
      var s0 := Noted(s, item.value);
      PartsRoleOnce(s0, c.parts);
      var (s1, a) := PartsStep(s0, c.parts);
      var (s2, b) := FinishStep(s1, c.finishReason);
      FinishRoleOnce(s1, c.finishReason);
      RoleOnceAppend(s.sentRole, a, s1.sentRole, b, s2.sentRole);
    }
  }

  lemma FinishRoleOnce(s: State, reason: string)
    ensures RoleOnce(s.sentRole, FinishStep(s, reason).1, FinishStep(s, reason).0.sentRole)
  {
  }

  /** The assistant role is on the first emitted chunk and on no other. */
  lemma {:induction false} RoleIsOnTheFirstChunk(s: State, items: seq<Item>)
    ensures RoleOnce(s.sentRole, Run(s, items).1, Run(s, items).0.sentRole)
    decreases |items|
  {
    hide RoleOnce, Next;
    NoneRoleOnce(s.sentRole);
    if items != [] {
      var (s1, first) := Next(s, items[0]);
      StepRoleOnce(s, items[0]);
      RoleIsOnTheFirstChunk(s1, items[1..]);
      RoleOnceAppend(s.sentRole, first, s1.sentRole, Run(s1, items[1..]).1, Run(s1, items[1..]).0.sentRole);
    }
  }

  // ----- text and tool calls -----------------------------------------------

  /** The text of the parts that are not calls. */
  function SpokenText(parts: seq<Part>): string {
    if parts == [] then ""
    else SpokenText(parts[..|parts| - 1]) + (if parts[|parts| - 1].call.None? then parts[|parts| - 1].text else "")
  }

  function CallsOf(parts: seq<Part>): seq<ToolCall> {
    if parts == [] then []
    else
      var last := parts[|parts| - 1];
      CallsOf(parts[..|parts| - 1])
      + (if last.call.Some? then [ToolCall(last.call.value.id, last.call.value.name, ArgsOf(last.call.value))] else [])
  }

  lemma {:induction false} PartsAppend(a: seq<Part>, b: seq<Part>)
    ensures SpokenText(a + b) == SpokenText(a) + SpokenText(b)
    ensures CallsOf(a + b) == CallsOf(a) + CallsOf(b)
    ensures WholeText(a + b) == WholeText(a) + WholeText(b)
    decreases |b|
  {
    hide SpokenText, CallsOf, WholeText;
    LastPart(a + b);
    LastPart(b);
    if b == [] {
      assert a + b == a;
      assert SpokenText(a) + "" == SpokenText(a) && CallsOf(a) + [] == CallsOf(a) && WholeText(a) + "" == WholeText(a);
    } else {
      var front := b[..|b| - 1];
      PartsAppend(a, front);
      assert (a + b)[..|a + b| - 1] == a + front && (a + b)[|a + b| - 1] == b[|b| - 1];
    }
  }

  lemma LastPart(parts: seq<Part>)
    ensures parts == [] ==> SpokenText(parts) == "" && CallsOf(parts) == [] && WholeText(parts) == ""
    ensures parts != [] ==>
      var front, last := parts[..|parts| - 1], parts[|parts| - 1];
      && SpokenText(parts) == SpokenText(front) + (if last.call.None? then last.text else "")
      && CallsOf(parts) == CallsOf(front)
           + (if last.call.None? then []
              else [ToolCall(last.call.value.id, last.call.value.name, ArgsOf(last.call.value))])
      && WholeText(parts) == WholeText(front) + last.text
  {
  }

  /** The chunks add the text and the calls of some parts to what the client has,
      and the translator counts the calls. */
  ghost predicate Adds(m: Message, calls: nat, chunks: seq<Chunk>, parts: seq<Part>, calls': nat) {
    var m' := Assemble(m, chunks);
    && m'.text == m.text + SpokenText(parts) && m'.tools == m.tools + CallsOf(parts)
    && (calls == |m.tools| ==> InTurn(m, chunks) && calls' == |m'.tools|)
  }

  lemma AddsAppend(m: Message, calls: nat, a: seq<Chunk>, p: seq<Part>, between: nat,
                   b: seq<Chunk>, q: seq<Part>, calls': nat)
    requires Adds(m, calls, a, p, between) && calls == |m.tools|
    requires Adds(Assemble(m, a), between, b, q, calls')
    ensures Adds(m, calls, a + b, p + q, calls')
  {
    hide SpokenText, CallsOf, Assemble, InTurn;
    AssembleAppend(m, a, b);
    PartsAppend(p, q);
    assert m.text + SpokenText(p) + SpokenText(q) == m.text + (SpokenText(p) + SpokenText(q));
    assert m.tools + CallsOf(p) + CallsOf(q) == m.tools + (CallsOf(p) + CallsOf(q));
  }

  lemma PartAdds(s: State, m: Message, p: Part)
    requires s.toolCalls == |m.tools|
    ensures Adds(m, s.toolCalls, PartStep(s, p).1, [p], PartStep(s, p).0.toolCalls)
  {
    hide SpokenText, CallsOf;
    OnePart(p);
    var chunks := PartStep(s, p).1;
    if chunks == [] {
      assert Assemble(m, chunks) == m && m.text + "" == m.text && m.tools + [] == m.tools;
    } else {
      assert chunks == [chunks[0]];
      AssembleOne(m, chunks[0]);
      assert m.text + "" == m.text && m.tools + [] == m.tools;
    }
  }

  lemma OnePart(p: Part)
    ensures SpokenText([p]) == if p.call.None? then p.text else ""
    ensures CallsOf([p])
         == if p.call.Some? then [ToolCall(p.call.value.id, p.call.value.name, ArgsOf(p.call.value))] else []
  {
    assert [p][..0] == [];
  }

  lemma NothingAdds(m: Message, chunks: seq<Chunk>, calls: nat)
    requires chunks == [] || (|chunks| == 1 && chunks[0].content.None? && chunks[0].tool.None?)
    ensures Adds(m, calls, chunks, [], calls)
  {
    LastPart([]);
    assert m.text + "" == m.text && m.tools + [] == m.tools;
    if chunks == [] {
      assert Assemble(m, chunks) == m;
    } else {
      assert chunks == [chunks[0]];
      AssembleOne(m, chunks[0]);
    }
  }

  lemma {:induction false} PartsAdd(s: State, m: Message, parts: seq<Part>)
    requires s.toolCalls == |m.tools|
    ensures Adds(m, s.toolCalls, PartsStep(s, parts).1, parts, PartsStep(s, parts).0.toolCalls)
    decreases |parts|
  {
    hide Adds, PartStep;
    if parts == [] {
      NothingAdds(m, [], s.toolCalls);
    } else {
      var front, last := parts[..|parts| - 1], parts[|parts| - 1];
      var (s1, a) := PartsStep(s, front);
      PartsAdd(s, m, front);
      AddsCount(m, s.toolCalls, a, front, s1.toolCalls);
      PartAdds(s1, Assemble(m, a), last);
      AddsAppend(m, s.toolCalls, a, front, s1.toolCalls, PartStep(s1, last).1, [last], PartStep(s1, last).0.toolCalls);
      assert front + [last] == parts;
    }
  }

  lemma AddsCount(m: Message, calls: nat, chunks: seq<Chunk>, parts: seq<Part>, calls': nat)
    requires Adds(m, calls, chunks, parts, calls') && calls == |m.tools|
    ensures calls' == |Assemble(m, chunks).tools|
  {
  }

  function PartsIn(item: Item): seq<Part> {
    if item.Some? && item.value.candidate.Some? then item.value.candidate.value.parts else []
  }

  lemma NextAdds(s: State, m: Message, item: Item)
    requires s.toolCalls == |m.tools|
    ensures Adds(m, s.toolCalls, Next(s, item).1, PartsIn(item), Next(s, item).0.toolCalls)
  {
    hide Adds, PartsStep, FinishReason;
    NothingAdds(m, [], s.toolCalls);
    if item.Some? && item.value.candidate.Some? {
      var c := item.value.candidate.value;
      var s0 := Noted(s, item.value);
      var (s1, a) := PartsStep(s0, c.parts);
      PartsAdd(s0, m, c.parts);
      var (s2, b) := FinishStep(s1, c.finishReason);
      NothingAdds(Assemble(m, a), b, s1.toolCalls);
      AddsAppend(m, s.toolCalls, a, c.parts, s1.toolCalls, b, [], s2.toolCalls);
      assert c.parts + [] == c.parts;
    }
  }

  /** Whatever frames arrive, the client assembles the text of all parts that are
      not calls and all the calls, in order, and the calls are numbered from zero
      without gaps. */
  lemma {:induction false} StreamedIsSpoken(s: State, m: Message, items: seq<Item>)
    requires s.toolCalls == |m.tools|
    ensures Adds(m, s.toolCalls, Run(s, items).1, AllParts(items), Run(s, items).0.toolCalls)
    decreases |items|
  {
    hide Adds, Next;
    NothingAdds(m, [], s.toolCalls);
    if items != [] {
      var (s1, first) := Next(s, items[0]);
      NextAdds(s, m, items[0]);
      AddsCount(m, s.toolCalls, first, PartsIn(items[0]), s1.toolCalls);
      StreamedIsSpoken(s1, Assemble(m, first), items[1..]);
      AddsAppend(m, s.toolCalls, first, PartsIn(items[0]), s1.toolCalls,
        Run(s1, items[1..]).1, AllParts(items[1..]), Run(s1, items[1..]).0.toolCalls);
    }
  }

  // ----- against a whole response ------------------------------------------

  /** The text of every part. */
  function WholeText(parts: seq<Part>): string {
    if parts == [] then "" else WholeText(parts[..|parts| - 1]) + parts[|parts| - 1].text
  }

  function FinishOfResponse(reason: string): string {
    match reason
    case "STOP" => "stop"
    case "MAX_TOKENS" => "length"
    case "SAFETY" => "content_filter"
    case "RECITATION" => "content_filter"
    case _ => "stop"
  }

  datatype UsageBlock = UsageBlock(prompt: Int64, completion: Int64, total: Int64)

  function UsageOfResponse(u: Normalise.GoogleUsage): UsageBlock {
    var completion := Wrap(u.candidates + u.thoughts);
    UsageBlock(u.prompt, completion, Wrap(u.prompt + completion))
  }

  /** TranslateGoogleResponse; fields that are absent read as zero. */
  method TranslateResponse(candidate: Option<Candidate>, u: Normalise.GoogleUsage)
      returns (text: string, finish: string, usage: UsageBlock)
    ensures text == WholeText(if candidate.Some? then candidate.value.parts else [])
    ensures finish == FinishOfResponse(if candidate.Some? then candidate.value.finishReason else "")
    ensures usage == UsageOfResponse(u)
  {
    hide Wrap;
    text, finish := "", "stop";
    if candidate.Some? {
      var parts := candidate.value.parts;
      for i := 0 to |parts|
        invariant text == WholeText(parts[..i])
      {
        assert parts[..i + 1][..i] == parts[..i];
        text := text + parts[i].text;
      }
      assert parts[..|parts|] == parts;
      finish := FinishOfResponse(candidate.value.finishReason);
    }
    var completion := Wrap(u.candidates + u.thoughts);
    usage := UsageBlock(u.prompt, completion, Wrap(u.prompt + completion));
  }

  /** The stream and the whole response have the same text exactly when no part is
      both a call and text. */
  lemma {:induction false} SameTextExactly(parts: seq<Part>)
    ensures |SpokenText(parts)| <= |WholeText(parts)|
    ensures SpokenText(parts) == WholeText(parts) <==> forall p :: p in parts ==> p.call.None? || p.text == ""
    decreases |parts|
  {
    LastPart(parts);
    if parts != [] {
      var front, last := parts[..|parts| - 1], parts[|parts| - 1];
      SameTextExactly(front);
      assert parts == front + [last];
      if SpokenText(parts) == WholeText(parts) {
        var n := |WholeText(front)|;
        assert |SpokenText(front)| == n ==> SpokenText(parts)[..n] == WholeText(parts)[..n];
      }
    }
  }

  /** The finish reasons agree exactly when no tool was called and the reason is not
      one that only the stream calls a content filter. */
  lemma SameFinishExactly(toolCalls: nat, reason: string)
    ensures FinishReason(toolCalls, reason) == FinishOfResponse(reason)
       <==> toolCalls == 0 && reason !in ["BLOCKLIST", "PROHIBITED_CONTENT", "SPII"]
  {
    assert "tool_calls"[0] != "stop"[0] && "tool_calls"[0] != "length"[0] && "tool_calls"[0] != "content_filter"[0];
    assert "content_filter"[0] != "stop"[0];
  }

  predicate Unfinished(item: Item) {
    item.Some? && item.value.candidate.Some? ==> item.value.candidate.value.finishReason == ""
  }

  lemma {:induction false} PartsDoNotFinish(s: State, m: Message, parts: seq<Part>)
    ensures Assemble(m, PartsStep(s, parts).1).finish == m.finish
    decreases |parts|
  {
    if parts != [] {
      var (s1, a) := PartsStep(s, parts[..|parts| - 1]);
      var b := PartStep(s1, parts[|parts| - 1]).1;
      PartsDoNotFinish(s, m, parts[..|parts| - 1]);
      AssembleAppend(m, a, b);
      if b != [] {
        assert b == [b[0]];
        AssembleOne(Assemble(m, a), b[0]);
      }
    }
  }

  lemma UnfinishedFrame(s: State, m: Message, item: Item)
    requires Unfinished(item)
    ensures Assemble(m, Next(s, item).1).finish == m.finish
  {
    hide PartsStep;
    if item.Some? && item.value.candidate.Some? {
      var s0 := Noted(s, item.value);
      var chunks := PartsStep(s0, item.value.candidate.value.parts).1;
      PartsDoNotFinish(s0, m, item.value.candidate.value.parts);
      assert Next(s, item).1 == chunks + [] == chunks;
    }
  }

  lemma {:induction false} UnfinishedStream(s: State, m: Message, items: seq<Item>)
    requires forall i :: i in items ==> Unfinished(i)
    ensures Assemble(m, Run(s, items).1).finish == m.finish
    decreases |items|
  {
    hide Next, Assemble, Unfinished;
    if items == [] {
      NothingAssembled(m);
    } else {
      var (s1, first) := Next(s, items[0]);
      assert items[0] in items;
      UnfinishedFrame(s, m, items[0]);
      UnfinishedStream(s1, Assemble(m, first), items[1..]);
      AssembleAppend(m, first, Run(s1, items[1..]).1);
    }
  }

  lemma NothingAssembled(m: Message)
    ensures Assemble(m, []) == m
  {
  }

  lemma {:induction false} RunAppend(s: State, a: seq<Item>, b: seq<Item>)
    ensures Run(s, a + b).0 == Run(Run(s, a).0, b).0
    ensures Run(s, a + b).1 == Run(s, a).1 + Run(Run(s, a).0, b).1
    decreases |a|
  {
    hide Next;
    if a == [] {
      assert a + b == b;
    } else {
      RunAppend(Next(s, a[0]).0, a[1..], b);
      assert (a + b)[0] == a[0] && (a + b)[1..] == a[1..] + b;
    }
  }

  lemma RunOne(s: State, item: Item)
    ensures Run(s, [item]) == Next(s, item)
  {
    assert [item][1..] == [];
    assert Next(s, item).1 + [] == Next(s, item).1;
  }

  /** So for a stream that ends in the frame that says why it stopped. */
  lemma StreamedFinishExactly(items: seq<Item>, last: Frame)
    requires forall i :: i in items ==> Unfinished(i)
    requires last.candidate.Some? && last.candidate.value.finishReason != ""
    ensures
      var reason := last.candidate.value.finishReason;
      Assemble(EMPTY, Run(INITIAL, items + [Some(last)]).1).finish == Some(FinishOfResponse(reason))
      <==> CallsOf(AllParts(items + [Some(last)])) == [] && reason !in ["BLOCKLIST", "PROHIBITED_CONTENT", "SPII"]
  {
    hide FinishReason, FinishOfResponse, PartsStep, CallsOf, AllParts, Assemble, InTurn;
    var c := last.candidate.value;
    var (s1, a) := Run(INITIAL, items);
    var s2 := Noted(s1, last);
    var (s3, b) := PartsStep(s2, c.parts);
    var m := Assemble(Assemble(EMPTY, a), b);
    RunAppend(INITIAL, items, [Some(last)]);
    RunOne(s1, Some(last));
    var finish := FinishStep(s3, c.finishReason).1;
    assert Run(INITIAL, items + [Some(last)]).1 == a + (b + finish);
    AssembleAppend(EMPTY, a, b + finish);
    AssembleAppend(Assemble(EMPTY, a), b, finish);
    AssembleOne(m, finish[0]);
    StreamedIsSpoken(INITIAL, EMPTY, items + [Some(last)]);
    assert [] + CallsOf(AllParts(items + [Some(last)])) == CallsOf(AllParts(items + [Some(last)]));
    SameFinishExactly(s3.toolCalls, c.finishReason);
  }

  lemma {:induction false} NoCalls(parts: seq<Part>)
    ensures CallsOf(parts) == [] <==> forall p :: p in parts ==> p.call.None?
    decreases |parts|
  {
    hide CallsOf, SpokenText, WholeText;
    LastPart(parts);
    if parts != [] {
      var front, last := parts[..|parts| - 1], parts[|parts| - 1];
      NoCalls(front);
      assert parts == front + [last];
    }
  }

  /** What a client has of a whole response: its calls are dropped. */
  function WholeMessage(parts: seq<Part>, reason: string): Message {
    Message(WholeText(parts), [], Some(FinishOfResponse(reason)))
  }

  /** The message that a client assembles from a stream is that of the whole response
      exactly when no tool was called and the stream's reason is not one of those that
      only the stream calls a content filter. */
  lemma SameMessageExactly(items: seq<Item>, last: Frame)
    requires forall i :: i in items ==> Unfinished(i)
    requires last.candidate.Some? && last.candidate.value.finishReason != ""
    ensures
      var all, reason := items + [Some(last)], last.candidate.value.finishReason;
      Assemble(EMPTY, Run(INITIAL, all).1) == WholeMessage(AllParts(all), reason)
      <==> CallsOf(AllParts(all)) == [] && reason !in ["BLOCKLIST", "PROHIBITED_CONTENT", "SPII"]
  {
    hide *;
    var all := items + [Some(last)];
    var parts := AllParts(all);
    StreamedFinishExactly(items, last);
    StreamedParts(all);
    NoCalls(parts);
    SameTextExactly(parts);
    WholeMessageIs(parts, last.candidate.value.finishReason);
  }

  lemma StreamedParts(items: seq<Item>)
    ensures
      var m, parts := Assemble(EMPTY, Run(INITIAL, items).1), AllParts(items);
      m.text == SpokenText(parts) && m.tools == CallsOf(parts)
  {
    hide SpokenText, CallsOf, Assemble, Run, AllParts, InTurn;
    StreamedIsSpoken(INITIAL, EMPTY, items);
  }

  lemma WholeMessageIs(parts: seq<Part>, reason: string)
    ensures WholeMessage(parts, reason) == Message(WholeText(parts), [], Some(FinishOfResponse(reason)))
  {
  }

  // ----- usage -------------------------------------------------------------

  function Reported(s: State): (PriceTable.Counts, bool) {
    if s.lastUsage.Some? && s.lastUsage.value.WithUsage? then
      (Normalise.FromGoogle(s.lastUsage.value.usage).counts, true)
    else (map[], false)
  }

  function StreamedUsage(s: State): Option<UsageBlock> {
    var (counts, ok) := Reported(s);
    if !ok then None
    else
      var prompt := Wrap(PriceTable.Count(counts, PriceTable.Input) + PriceTable.Count(counts, PriceTable.CachedRead));
      var completion := PriceTable.Count(counts, PriceTable.Output);
      Some(UsageBlock(prompt, completion, Wrap(prompt + completion)))
  }

  /** The usage field of the last frame that has one, if any. */
  function LastField(before: Option<Usage>, items: seq<Item>): Option<Usage>
    decreases |items|
  {
    if items == [] then before
    else LastField(if items[0].Some? && items[0].value.usage.Some? then items[0].value.usage else before, items[1..])
  }

  /** The last usage that a frame did give. */
  function LastGiven(before: Option<Normalise.GoogleUsage>, items: seq<Item>): Option<Normalise.GoogleUsage>
    decreases |items|
  {
    if items == [] then before
    else if items[0].Some? && items[0].value.usage.Some? && items[0].value.usage.value.WithUsage?
    then LastGiven(Some(items[0].value.usage.value.usage), items[1..])
    else LastGiven(before, items[1..])
  }

  lemma {:induction false} PartsKeepUsage(s: State, parts: seq<Part>)
    ensures PartsStep(s, parts).0.lastUsage == s.lastUsage
    decreases |parts|
  {
    if parts != [] {
      PartsKeepUsage(s, parts[..|parts| - 1]);
    }
  }

  lemma {:induction false} RunKeepsLastField(s: State, items: seq<Item>)
    ensures Run(s, items).0.lastUsage == LastField(s.lastUsage, items)
    decreases |items|
  {
    if items != [] {
      var s1 := Next(s, items[0]).0;
      if items[0].Some? && items[0].value.candidate.Some? {
        PartsKeepUsage(Noted(s, items[0].value), items[0].value.candidate.value.parts);
      }
      RunKeepsLastField(s1, items[1..]);
    }
  }

  lemma {:induction false} GivenIsLast(before: Option<Usage>, given: Option<Normalise.GoogleUsage>, items: seq<Item>)
    requires before.Some? && before.value.WithUsage? ==> given == Some(before.value.usage)
    requires before.None? ==> given.None?
    ensures
      var last := LastField(before, items);
      && (last.Some? && last.value.WithUsage? ==> LastGiven(given, items) == Some(last.value.usage))
      && (last.None? ==> LastGiven(given, items).None?)
    decreases |items|
  {
    if items != [] {
      var f := items[0];
      var has := f.Some? && f.value.usage.Some?;
      GivenIsLast(
        if has then f.value.usage else before,
        if has && f.value.usage.value.WithUsage? then Some(f.value.usage.value.usage) else given,
        items[1..]);
    }
  }

  /** After any stream the reported usage is the normalised usage of the last frame
      that gave one, exactly when no later frame carried a field without a value;
      otherwise nothing is reported at all. */
  lemma UsageIsTheLastGiven(items: seq<Item>)
    requires LastGiven(None, items).Some?
    ensures
      var last := LastField(None, items);
      && last.Some?
      && (last.value.WithUsage? ==>
            Reported(Run(INITIAL, items).0) == (Normalise.FromGoogle(LastGiven(None, items).value).counts, true))
      && (!last.value.WithUsage? ==> Reported(Run(INITIAL, items).0) == (map[], false))
  {
    hide Normalise.FromGoogle;
    RunKeepsLastField(INITIAL, items);
    GivenIsLast(None, None, items);
  }

  /** For non-negative fields the usage chunk is the usage block of a whole response
      exactly when no more is cached than prompted and the output fits 64 bits. */
  lemma SameUsageExactly(s: State, u: Normalise.GoogleUsage)
    requires s.lastUsage == Some(Normalise.WithUsage(u)) && Normalise.NonNegativeGoogle(u)
    ensures StreamedUsage(s) == Some(UsageOfResponse(u))
       <==> u.cached <= u.prompt && u.candidates + u.thoughts <= MAX_INT64
  {
    hide Wrap;
    Normalise.GoogleParts(u);
    Normalise.GoogleKinds(u);
    WrapOnce(u.candidates + u.thoughts);
  }
}
