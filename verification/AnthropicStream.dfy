/** The translator from Messages events to chat-completion chunks, against the
    translation of the whole message. */
module AnthropicStream {
  import opened Basics
  import opened ChatClient

  // ----- events ------------------------------------------------------------

  datatype Tokens = Tokens(input: Int64, output: Int64, cacheRead: Int64, cacheCreation: Int64)

  datatype Opening = Opening(id: string, model: string, usage: Option<Tokens>)

  datatype ContentBlock = ContentBlock(kind: string, id: string, name: string)

  datatype Delta = Delta(kind: string, text: string, partialJson: string, stopReason: string)

  /** The union of the fields of all events, absent ones being empty. */
  datatype Event = Event(
    kind: string, index: int, message: Option<Opening>, block: Option<ContentBlock>,
    delta: Option<Delta>, usage: Option<Tokens>)

  function KindOf(name: string, e: Event): string {
    if e.kind == "" then name else e.kind
  }

  function FinishReason(stop: string): string {
    match stop
    case "max_tokens" => "length"
    case "tool_use" => "tool_calls"
    case _ => "stop"
  }

  function NonNegative(n: Int64): Int64 {
    if n < 0 then 0 else n
  }

  // ----- the translator ----------------------------------------------------

  datatype State = State(
    id: string, model: string,
    input: Int64, cacheRead: Int64, cacheWrite: Int64, output: Int64,
    kinds: map<int, string>, tools: map<int, nat>, nextTool: nat,
    sawUsage: bool, sawStop: bool)

  const INITIAL: State := State("", "", 0, 0, 0, 0, map[], map[], 0, false, false)

  function Started(s: State, m: Option<Opening>): State {
    if m.None? then s
    else if m.value.usage.None? then s.(id := m.value.id, model := m.value.model)
    else
      var u := m.value.usage.value;
      s.(id := m.value.id, model := m.value.model, input := NonNegative(u.input),
         cacheRead := NonNegative(u.cacheRead), cacheWrite := NonNegative(u.cacheCreation))
  }

  function Plain(s: State): Chunk {
    Chunk(s.id, s.model, false, None, None, None)
  }

  function OpenBlock(s: State, e: Event): (State, seq<Chunk>) {
    if e.block.None? then (s, [])
    else if e.block.value.kind != "tool_use" then (s.(kinds := s.kinds[e.index := e.block.value.kind]), [])
    else
      (s.(kinds := s.kinds[e.index := e.block.value.kind], tools := s.tools[e.index := s.nextTool],
          nextTool := s.nextTool + 1),
       [Plain(s).(tool := Some(ToolDelta(s.nextTool, Some((e.block.value.id, e.block.value.name)), "")))])
  }

  function PassPiece(s: State, e: Event): seq<Chunk> {
    if e.delta.None? then []
    else if e.delta.value.kind == "text_delta" then [Plain(s).(content := Some(e.delta.value.text))]
    else if e.delta.value.kind == "input_json_delta" && e.index in s.tools then
      [Plain(s).(tool := Some(ToolDelta(s.tools[e.index], None, e.delta.value.partialJson)))]
    else []
  }

  function EndMessage(s: State, e: Event): (State, seq<Chunk>) {
    var s' := if e.usage.None? then s else s.(output := NonNegative(e.usage.value.output), sawUsage := true);
    (s', if e.delta.None? || e.delta.value.stopReason == "" then []
         else [Plain(s').(finish := Some(FinishReason(e.delta.value.stopReason)))])
  }

  /** What one event, already parsed, does to the state and what it is turned into. */
  function Step(s: State, name: string, e: Event): (State, seq<Chunk>) {
    match KindOf(name, e)
    case "message_start" =>
      var s' := Started(s, e.message);
      (s', [Plain(s').(role := true)])
    case "content_block_start" => OpenBlock(s, e)
    case "content_block_delta" => (s, PassPiece(s, e))
    case "message_delta" => EndMessage(s, e)
    case "message_stop" => (s.(sawStop := true), [])
    case _ => (s, [])
  }

  datatype UsageBlock = UsageBlock(prompt: Int64, completion: Int64, total: Int64)

  function StreamedUsage(s: State): UsageBlock {
    var prompt := Wrap(s.input + s.cacheRead + s.cacheWrite);
    UsageBlock(prompt, s.output, Wrap(prompt + s.output))
  }

  class Translator {
    var id: string
    var model: string
    var inputTokens: Int64
    var cacheReadTokens: Int64
    var cacheWriteTokens: Int64
    var outputTokens: Int64
    var blockKind: map<int, string>
    var toolIndex: map<int, nat>
    var nextTool: nat
    var sawUsage: bool
    var sawStop: bool

    ghost function Contents(): State
      reads this
    {
      State(id, model, inputTokens, cacheReadTokens, cacheWriteTokens, outputTokens, blockKind, toolIndex, nextTool,
        sawUsage, sawStop)
    }

    constructor ()
      ensures Contents() == INITIAL
    {
      id, model, inputTokens, cacheReadTokens, cacheWriteTokens, outputTokens := "", "", 0, 0, 0, 0;
      blockKind, toolIndex, nextTool, sawUsage, sawStop := map[], map[], 0, false, false;
    }

    /** An event that cannot be parsed is reported and changes nothing. */
    method Translate(name: string, parsed: Option<Event>) returns (ok: bool, chunks: seq<Chunk>)
      modifies this
      ensures ok <==> parsed.Some?
      ensures ok ==> (Contents(), chunks) == Step(old(Contents()), name, parsed.value)
      ensures !ok ==> Contents() == old(Contents()) && chunks == []
    {
      if parsed.None? {
        return false, [];
      }
      var e := parsed.value;
      var kind := if e.kind == "" then name else e.kind;
      ok, chunks := true, [];
      if kind == "message_start" {
        Start(e.message);
        chunks := [Chunk(id, model, true, None, None, None)];
      } else if kind == "content_block_start" {
        chunks := StartBlock(e.index, e.block);
      } else if kind == "content_block_delta" {
        chunks := PassDelta(e.index, e.delta);
      } else if kind == "message_delta" {
        if e.usage.Some? {
          outputTokens, sawUsage := NonNegative(e.usage.value.output), true;
        }
        if e.delta.Some? && e.delta.value.stopReason != "" {
          chunks := [Chunk(id, model, false, None, None, Some(FinishReason(e.delta.value.stopReason)))];
        }
      } else if kind == "message_stop" {
        sawStop := true;
      }
    }

    method Start(message: Option<Opening>)
      modifies this
      ensures Contents() == Started(old(Contents()), message)
    {
      if message.Some? {
        id, model := message.value.id, message.value.model;
        if message.value.usage.Some? {
          var u := message.value.usage.value;
          inputTokens, cacheReadTokens, cacheWriteTokens :=
            NonNegative(u.input), NonNegative(u.cacheRead), NonNegative(u.cacheCreation);
        }
      }
    }

    method StartBlock(index: int, block: Option<ContentBlock>) returns (chunks: seq<Chunk>)
      modifies this
      ensures (Contents(), chunks)
        == Step(old(Contents()), "", Event("content_block_start", index, None, block, None, None))
    {
      if block.None? {
        return [];
      }
      blockKind := blockKind[index := block.value.kind];
      if block.value.kind != "tool_use" {
        return [];
      }
      var next := nextTool;
      toolIndex := toolIndex[index := next];
      nextTool := nextTool + 1;
      var head := (block.value.id, block.value.name);
      chunks := [Chunk(id, model, false, None, Some(ToolDelta(next, Some(head), "")), None)];
    }

    method PassDelta(index: int, delta: Option<Delta>) returns (chunks: seq<Chunk>)
      ensures (Contents(), chunks)
        == Step(Contents(), "", Event("content_block_delta", index, None, None, delta, None))
    {
      if delta.None? {
        return [];
      }
      var d := delta.value;
      if d.kind == "text_delta" {
        chunks := [Chunk(id, model, false, Some(d.text), None, None)];
      } else if d.kind == "input_json_delta" && index in toolIndex {
        chunks := [Chunk(id, model, false, None, Some(ToolDelta(toolIndex[index], None, d.partialJson)), None)];
      } else {
        chunks := [];
      }
    }

    method UsageChunk() returns (usage: UsageBlock)
      ensures usage == StreamedUsage(Contents())
    {
      var prompt := Wrap(Wrap(inputTokens + cacheReadTokens) + cacheWriteTokens);
      WrapAdd(inputTokens + cacheReadTokens, cacheWriteTokens);
      usage := UsageBlock(prompt, outputTokens, Wrap(prompt + outputTokens));
    }
  }

  /** One frame of the stream: the name of its event, and its payload if it could
      be parsed. */
  type Item = (string, Option<Event>)

  function Next(s: State, item: Item): (State, seq<Chunk>) {
    if item.1.None? then (s, []) else Step(s, item.0, item.1.value)
  }

  function Run(s: State, items: seq<Item>): (State, seq<Chunk>)
    decreases |items|
  {
    if items == [] then (s, [])
    else
      var (s1, first) := Next(s, items[0]);
      var (s2, rest) := Run(s1, items[1..]);
      (s2, first + rest)
  }

  // ----- tool calls, for any sequence at all -------------------------------

  /** Every block that opened a tool call has a number of its own among those given
      out, and the client knows as many calls. */
  ghost predicate Numbered(s: State, m: Message) {
    && s.nextTool == |m.tools|
    && (forall i :: i in s.tools ==> s.tools[i] < s.nextTool)
    && (forall i, j :: i in s.tools && j in s.tools && i != j ==> s.tools[i] != s.tools[j])
  }

  /** An event opens a call, passes on a fragment of one, or has nothing to do with
      tool calls. */
  lemma StepShape(s: State, name: string, e: Event)
    ensures
      var (s', chunks) := Step(s, name, e);
      && |chunks| <= 1
      && (s'.nextTool == s.nextTool ==>
            && s'.tools == s.tools
            && (chunks != [] && chunks[0].tool.Some? ==>
                  && e.index in s.tools && chunks[0].tool.value.head.None?
                  && chunks[0].tool.value.index == s.tools[e.index]))
      && (s'.nextTool != s.nextTool ==>
            && s'.nextTool == s.nextTool + 1 && s'.tools == s.tools[e.index := s.nextTool]
            && chunks != [] && chunks[0].tool.Some?
            && chunks[0].tool.value.head.Some? && chunks[0].tool.value.index == s.nextTool)
  {
    hide FinishReason, NonNegative, Started;
    StartKeepsTools(s, e.message);
  }

  lemma StartKeepsTools(s: State, m: Option<Opening>)
    ensures Started(s, m).tools == s.tools && Started(s, m).nextTool == s.nextTool
  {
  }

  lemma StepStaysNumbered(s: State, item: Item, m: Message)
    requires Numbered(s, m)
    ensures
      var (s', chunks) := Next(s, item);
      Numbered(s', Assemble(m, chunks)) && InTurn(m, chunks)
  {
    hide Step;
    if item.1.Some? {
      StepShape(s, item.0, item.1.value);
    }
    var (s', chunks) := Next(s, item);
    if chunks == [] {
      assert Assemble(m, chunks) == m;
    } else {
      assert chunks == [chunks[0]];
      AssembleOne(m, chunks[0]);
    }
  }

  /** Whatever the provider sends, the tool calls of the translated stream are
      numbered from zero without gaps, and every fragment belongs to a call that
      was opened before. */
  lemma {:induction false} ToolCallsAreInTurn(s: State, items: seq<Item>, m: Message)
    requires Numbered(s, m)
    ensures
      var (s', chunks) := Run(s, items);
      Numbered(s', Assemble(m, chunks)) && InTurn(m, chunks)
    decreases |items|
  {
    if items != [] {
      var (s1, first) := Next(s, items[0]);
      StepStaysNumbered(s, items[0], m);
      ToolCallsAreInTurn(s1, items[1..], Assemble(m, first));
      AssembleAppend(m, first, Run(s1, items[1..]).1);
    }
  }

  // ----- the whole message -------------------------------------------------

  /** A content block as the events build it up. */
  datatype Block = Block(index: int, kind: string, id: string, name: string, text: string, json: string)

  datatype Whole = Whole(blocks: seq<Block>, stop: string)

  function Find(blocks: seq<Block>, index: int): (j: nat)
    ensures j <= |blocks| && (j < |blocks| ==> blocks[j].index == index)
    ensures forall i :: 0 <= i < j ==> blocks[i].index != index
  {
    if blocks == [] || blocks[0].index == index then 0 else 1 + Find(blocks[1..], index)
  }

  function Grown(b: Block, d: Delta): Block {
    if d.kind == "text_delta" then b.(text := b.text + d.text)
    else if d.kind == "input_json_delta" then b.(json := b.json + d.partialJson)
    else b
  }

  /** The message that the events describe, as the protocol documents them. */
  function Describe(w: Whole, item: Item): Whole {
    if item.1.None? then w
    else
      var e := item.1.value;
      match KindOf(item.0, e)
      case "content_block_start" =>
        if e.block.None? then w
        else w.(blocks := w.blocks + [Block(e.index, e.block.value.kind, e.block.value.id, e.block.value.name, "", "")])
      case "content_block_delta" =>
        var j := Find(w.blocks, e.index);
        if e.delta.None? || j == |w.blocks| then w
        else w.(blocks := w.blocks[j := Grown(w.blocks[j], e.delta.value)])
      case "message_delta" =>
        if e.delta.None? || e.delta.value.stopReason == "" then w else w.(stop := e.delta.value.stopReason)
      case _ => w
  }

  /** Blocks open in the order of their indices and text goes to a text block that is
      open, as the protocol has it. */
  predicate InSequence(w: Whole, item: Item) {
    item.1.Some? ==>
      var e := item.1.value;
      && (KindOf(item.0, e) == "content_block_start" && e.block.Some? ==>
            forall b :: b in w.blocks ==> b.index < e.index)
      && (BringsText(item) ==>
            var j := Find(w.blocks, e.index);
            j < |w.blocks| && w.blocks[j].kind == "text")
  }

  predicate BringsText(item: Item) {
    && item.1.Some? && KindOf(item.0, item.1.value) == "content_block_delta"
    && item.1.value.delta.Some? && item.1.value.delta.value.kind == "text_delta"
  }

  /** New text for a block commutes with the text of the blocks after it: there is
      none, say, as long as blocks are sent one after the other. */
  predicate Commutes(w: Whole, item: Item) {
    BringsText(item) ==>
      var j, text := Find(w.blocks, item.1.value.index), item.1.value.delta.value.text;
      j < |w.blocks| ==> text + TextOf(w.blocks[j + 1..]) == TextOf(w.blocks[j + 1..]) + text
  }

  predicate WellFormed(w: Whole, item: Item) {
    InSequence(w, item) && Commutes(w, item)
  }

  function DescribeAll(w: Whole, items: seq<Item>): Whole
    decreases |items|
  {
    if items == [] then w else DescribeAll(Describe(w, items[0]), items[1..])
  }

  predicate AllWellFormed(w: Whole, items: seq<Item>)
    decreases |items|
  {
    items == [] || (WellFormed(w, items[0]) && AllWellFormed(Describe(w, items[0]), items[1..]))
  }

  predicate AllInSequence(w: Whole, items: seq<Item>)
    decreases |items|
  {
    items == [] || (InSequence(w, items[0]) && AllInSequence(Describe(w, items[0]), items[1..]))
  }

  // ----- the translation of a whole message --------------------------------

  function TextOf(blocks: seq<Block>): string {
    if blocks == [] then ""
    else (if blocks[0].kind == "text" then blocks[0].text else "") + TextOf(blocks[1..])
  }

  function CallOf(b: Block): ToolCall {
    ToolCall(b.id, b.name, b.json)
  }

  function ToolsOf(blocks: seq<Block>): seq<ToolCall> {
    if blocks == [] then []
    else (if blocks[0].kind == "tool_use" then [CallOf(blocks[0])] else []) + ToolsOf(blocks[1..])
  }

  /** The input of a block for which no fragment came is the empty object. */
  function InputOf(json: string): string {
    if json == "" then "{}" else json
  }

  function Encoded(compact: string -> string, calls: seq<ToolCall>): seq<ToolCall> {
    if calls == [] then []
    else [calls[0].(args := compact(InputOf(calls[0].args)))] + Encoded(compact, calls[1..])
  }

  function FinishOfResponse(stop: string): string {
    match stop
    case "end_turn" => "stop"
    case "max_tokens" => "length"
    case "stop_sequence" => "stop"
    case "tool_use" => "tool_calls"
    case _ => "stop"
  }

  /** TranslateAnthropicResponse; `compact` is what encoding a JSON value does to
      the text it was written in. */
  method TranslateResponse(w: Whole, compact: string -> string) returns (m: Message)
    ensures m == Message(TextOf(w.blocks), Encoded(compact, ToolsOf(w.blocks)), Some(FinishOfResponse(w.stop)))
  {
    var text, tools := "", [];
    for i := 0 to |w.blocks|
      invariant text == TextOf(w.blocks[..i])
      invariant tools == Encoded(compact, ToolsOf(w.blocks[..i]))
    {
      var b := w.blocks[i];
      OneMore(compact, w.blocks[..i], b);
      assert w.blocks[..i + 1] == w.blocks[..i] + [b];
      if b.kind == "text" {
        text := text + b.text;
      } else if b.kind == "tool_use" {
        tools := tools + [ToolCall(b.id, b.name, compact(InputOf(b.json)))];
      }
    }
    assert w.blocks[..|w.blocks|] == w.blocks;
    m := Message(text, tools, Some(FinishOfResponse(w.stop)));
  }

  lemma OneMore(compact: string -> string, blocks: seq<Block>, b: Block)
    ensures TextOf(blocks + [b]) == TextOf(blocks) + (if b.kind == "text" then b.text else "")
    ensures Encoded(compact, ToolsOf(blocks + [b]))
         == Encoded(compact, ToolsOf(blocks))
            + (if b.kind == "tool_use" then [ToolCall(b.id, b.name, compact(InputOf(b.json)))] else [])
  {
    BlocksAppend(blocks, [b]);
    OneBlock(b);
    EncodedAppend(compact, ToolsOf(blocks), ToolsOf([b]));
    if b.kind == "tool_use" {
      assert [CallOf(b)][1..] == [];
    } else {
      assert ToolsOf(blocks) + [] == ToolsOf(blocks);
    }
  }

  lemma OneBlock(b: Block)
    ensures TextOf([b]) == if b.kind == "text" then b.text else ""
    ensures ToolsOf([b]) == if b.kind == "tool_use" then [CallOf(b)] else []
  {
    assert [b][1..] == [];
  }

  lemma FirstBlock(blocks: seq<Block>)
    requires blocks != []
    ensures TextOf(blocks) == (if blocks[0].kind == "text" then blocks[0].text else "") + TextOf(blocks[1..])
    ensures ToolsOf(blocks) == (if blocks[0].kind == "tool_use" then [CallOf(blocks[0])] else []) + ToolsOf(blocks[1..])
  {
  }

  lemma NoBlocks()
    ensures TextOf([]) == "" && ToolsOf([]) == []
  {
  }

  lemma {:induction false} BlocksAppend(a: seq<Block>, b: seq<Block>)
    ensures TextOf(a + b) == TextOf(a) + TextOf(b)
    ensures ToolsOf(a + b) == ToolsOf(a) + ToolsOf(b)
  {
    hide TextOf, ToolsOf;
    if a == [] {
      NoBlocks();
      assert a + b == b && "" + TextOf(b) == TextOf(b) && [] + ToolsOf(b) == ToolsOf(b);
    } else {
      BlocksAppend(a[1..], b);
      FirstBlock(a);
      FirstBlock(a + b);
      assert (a + b)[0] == a[0] && (a + b)[1..] == a[1..] + b;
    }
  }

  lemma FirstEncoded(compact: string -> string, calls: seq<ToolCall>)
    ensures calls == [] ==> Encoded(compact, calls) == []
    ensures calls != [] ==>
      Encoded(compact, calls) == [calls[0].(args := compact(InputOf(calls[0].args)))] + Encoded(compact, calls[1..])
  {
  }

  lemma {:induction false} EncodedAppend(compact: string -> string, a: seq<ToolCall>, b: seq<ToolCall>)
    ensures Encoded(compact, a + b) == Encoded(compact, a) + Encoded(compact, b)
  {
    hide Encoded;
    FirstEncoded(compact, a);
    FirstEncoded(compact, a + b);
    if a == [] {
      assert a + b == b;
    } else {
      EncodedAppend(compact, a[1..], b);
      assert (a + b)[0] == a[0] && (a + b)[1..] == a[1..] + b;
    }
  }

  // ----- the streamed message is the whole message -------------------------

  ghost predicate Ascending(blocks: seq<Block>) {
    forall i, j :: 0 <= i < j < |blocks| ==> blocks[i].index < blocks[j].index
  }

  /** The number of a tool block's call is how many tool blocks come before it. */
  ghost predicate NumbersFit(s: State, blocks: seq<Block>) {
    && (forall j :: 0 <= j < |blocks| && blocks[j].kind == "tool_use" ==>
          blocks[j].index in s.tools && s.tools[blocks[j].index] == |ToolsOf(blocks[..j])|)
    && (forall i :: i in s.tools ==> Find(blocks, i) < |blocks| && blocks[Find(blocks, i)].kind == "tool_use")
  }

  /** What the client has so far is what the events have described so far. */
  ghost predicate Mirrors(s: State, m: Message, w: Whole) {
    && Ascending(w.blocks) && NumbersFit(s, w.blocks)
    && s.nextTool == |m.tools|
    && m.text == TextOf(w.blocks) && m.tools == ToolsOf(w.blocks)
    && m.finish == if w.stop == "" then None else Some(FinishOfResponse(w.stop))
  }

  lemma {:induction false} SameKinds(a: seq<Block>, b: seq<Block>)
    requires |a| == |b| && forall i :: 0 <= i < |a| ==> a[i].kind == b[i].kind
    ensures |ToolsOf(a)| == |ToolsOf(b)|
  {
    if a != [] {
      SameKinds(a[1..], b[1..]);
    }
  }

  lemma {:induction false} SameIndices(a: seq<Block>, b: seq<Block>, index: int)
    requires |a| == |b| && forall i :: 0 <= i < |a| ==> a[i].index == b[i].index
    ensures Find(a, index) == Find(b, index)
  {
    if a != [] && a[0].index != index {
      SameIndices(a[1..], b[1..], index);
    }
  }

  lemma {:induction false} FindAppend(a: seq<Block>, b: seq<Block>, index: int)
    ensures Find(a + b, index) == if Find(a, index) < |a| then Find(a, index) else |a| + Find(b, index)
  {
    if a == [] {
      assert a + b == b;
    } else {
      assert (a + b)[0] == a[0] && (a + b)[1..] == a[1..] + b;
      if a[0].index != index {
        FindAppend(a[1..], b, index);
      }
    }
  }

  /** A block that grows keeps its place. */
  lemma NumbersKept(s: State, blocks: seq<Block>, j: nat, b: Block)
    requires Ascending(blocks) && NumbersFit(s, blocks)
    requires j < |blocks| && b.index == blocks[j].index && b.kind == blocks[j].kind
    ensures Ascending(blocks[j := b]) && NumbersFit(s, blocks[j := b])
  {
    hide ToolsOf, Find;
    var grown := blocks[j := b];
    forall k | 0 <= k < |grown| && grown[k].kind == "tool_use"
      ensures grown[k].index in s.tools && s.tools[grown[k].index] == |ToolsOf(grown[..k])|
    {
      SameKinds(blocks[..k], grown[..k]);
    }
    forall i | i in s.tools
      ensures Find(grown, i) < |grown| && grown[Find(grown, i)].kind == "tool_use"
    {
      SameIndices(blocks, grown, i);
    }
  }

  lemma Replaced(blocks: seq<Block>, j: nat, b: Block)
    requires j < |blocks| && b.kind == blocks[j].kind
    ensures TextOf(blocks[j := b])
         == TextOf(blocks[..j]) + (if b.kind == "text" then b.text else "") + TextOf(blocks[j + 1..])
    ensures ToolsOf(blocks[j := b])
         == ToolsOf(blocks[..j]) + (if b.kind == "tool_use" then [CallOf(b)] else []) + ToolsOf(blocks[j + 1..])
  {
    hide TextOf, ToolsOf;
    BlocksAppend(blocks[..j] + [b], blocks[j + 1..]);
    BlocksAppend(blocks[..j], [b]);
    OneBlock(b);
    assert blocks[j := b] == blocks[..j] + [b] + blocks[j + 1..];
  }

  lemma TextMirrored(s: State, m: Message, w: Whole, j: nat, text: string)
    requires Mirrors(s, m, w) && j < |w.blocks| && w.blocks[j].kind == "text"
    requires text + TextOf(w.blocks[j + 1..]) == TextOf(w.blocks[j + 1..]) + text
    ensures
      var b := w.blocks[j].(text := w.blocks[j].text + text);
      Mirrors(s, m.(text := m.text + text), w.(blocks := w.blocks[j := b]))
  {
    hide TextOf, ToolsOf, Ascending, NumbersFit;
    var b := w.blocks[j].(text := w.blocks[j].text + text);
    NumbersKept(s, w.blocks, j, b);
    Replaced(w.blocks, j, b);
    Replaced(w.blocks, j, w.blocks[j]);
    assert w.blocks[j := w.blocks[j]] == w.blocks;
    GrownText(w.blocks, j, text);
    Swap(TextOf(w.blocks[..j]) + w.blocks[j].text, text, TextOf(w.blocks[j + 1..]));
  }

  lemma Swap(before: string, a: string, b: string)
    ensures before + a + b == before + b + a <==> a + b == b + a
  {
    assert before + a + b == before + (a + b) && before + b + a == before + (b + a);
    assert (before + (a + b))[|before|..] == a + b && (before + (b + a))[|before|..] == b + a;
  }

  /** A fragment for a block that is not a tool call goes nowhere on either side. */
  lemma JsonMirrored(s: State, m: Message, w: Whole, j: nat, json: string)
    requires Mirrors(s, m, w) && j < |w.blocks|
    ensures
      var b := w.blocks[j].(json := w.blocks[j].json + json);
      var p := |ToolsOf(w.blocks[..j])|;
      && (w.blocks[j].kind == "tool_use" ==> p < |m.tools|)
      && Mirrors(s,
           if w.blocks[j].kind == "tool_use"
           then m.(tools := m.tools[p := m.tools[p].(args := m.tools[p].args + json)]) else m,
           w.(blocks := w.blocks[j := b]))
  {
    hide TextOf, ToolsOf, Ascending, NumbersFit;
    var b := w.blocks[j].(json := w.blocks[j].json + json);
    NumbersKept(s, w.blocks, j, b);
    Replaced(w.blocks, j, b);
    Replaced(w.blocks, j, w.blocks[j]);
    assert w.blocks[j := w.blocks[j]] == w.blocks;
    if w.blocks[j].kind == "tool_use" {
      var p := |ToolsOf(w.blocks[..j])|;
      assert m.tools[p] == CallOf(w.blocks[j]);
      assert m.tools[p := CallOf(b)] == ToolsOf(w.blocks[..j]) + [CallOf(b)] + ToolsOf(w.blocks[j + 1..]);
    }
  }

  lemma BlockMirrored(s: State, m: Message, w: Whole, b: Block)
    requires Mirrors(s, m, w) && b.text == "" && b.json == "" && forall x :: x in w.blocks ==> x.index < b.index
    ensures
      var tool := b.kind == "tool_use";
      Mirrors(if tool then s.(tools := s.tools[b.index := s.nextTool], nextTool := s.nextTool + 1) else s,
        if tool then m.(tools := m.tools + [CallOf(b)]) else m,
        w.(blocks := w.blocks + [b]))
  {
    hide TextOf, ToolsOf, Find, Ascending, NumbersFit;
    BlocksAppend(w.blocks, [b]);
    OneBlock(b);
    assert TextOf(w.blocks) + "" == TextOf(w.blocks) && ToolsOf(w.blocks) + [] == ToolsOf(w.blocks);
    NumbersGrow(s, w.blocks, b);
  }

  /** A block that opens takes the next number if it is a tool call. */
  lemma NumbersGrow(s: State, before: seq<Block>, b: Block)
    requires Ascending(before) && NumbersFit(s, before) && s.nextTool == |ToolsOf(before)|
    requires forall x :: x in before ==> x.index < b.index
    ensures Ascending(before + [b])
    ensures NumbersFit(
      if b.kind == "tool_use" then s.(tools := s.tools[b.index := s.nextTool], nextTool := s.nextTool + 1) else s,
      before + [b])
  {
    hide TextOf, ToolsOf, Find;
    var blocks := before + [b];
    var s' :=
      if b.kind == "tool_use" then s.(tools := s.tools[b.index := s.nextTool], nextTool := s.nextTool + 1) else s;
    forall k | 0 <= k < |blocks| && blocks[k].kind == "tool_use"
      ensures blocks[k].index in s'.tools && s'.tools[blocks[k].index] == |ToolsOf(blocks[..k])|
    {
      assert blocks[..k] == before[..k];
      if k < |before| {
        assert before[k] in before;
      } else {
        assert before[..k] == before;
      }
    }
    forall i | i in s'.tools
      ensures Find(blocks, i) < |blocks| && blocks[Find(blocks, i)].kind == "tool_use"
    {
      FindAppend(before, [b], i);
      FindOne(b, i);
    }
  }

  lemma FindOne(b: Block, index: int)
    ensures Find([b], index) == if b.index == index then 0 else 1
  {
  }

  lemma NoneAssembled(m: Message)
    ensures Assemble(m, []) == m
  {
  }

  lemma StartMirrored(s: State, m: Message, w: Whole, item: Item)
    requires Mirrors(s, m, w) && WellFormed(w, item)
    requires item.1.Some? && KindOf(item.0, item.1.value) == "content_block_start"
    ensures Mirrors(Next(s, item).0, Assemble(m, Next(s, item).1), Describe(w, item))
  {
    hide TextOf, ToolsOf, Find, Ascending, NumbersFit, Assemble;
    NoneAssembled(m);
    var e := item.1.value;
    if e.block.Some? {
      var b := Block(e.index, e.block.value.kind, e.block.value.id, e.block.value.name, "", "");
      BlockMirrored(s, m, w, b);
      if b.kind == "tool_use" {
        var chunks := Next(s, item).1;
        assert chunks == [chunks[0]];
        AssembleOne(m, chunks[0]);
        assert Assemble(m, chunks) == m.(tools := m.tools + [CallOf(b)]);
      }
      SameNumbers(
        if b.kind == "tool_use" then s.(tools := s.tools[b.index := s.nextTool], nextTool := s.nextTool + 1) else s,
        Next(s, item).0, w.blocks + [b]);
    }
  }

  lemma SameNumbers(s: State, s': State, blocks: seq<Block>)
    requires NumbersFit(s, blocks) && s.tools == s'.tools
    ensures NumbersFit(s', blocks)
  {
  }

  lemma DeltaMirrored(s: State, m: Message, w: Whole, item: Item)
    requires Mirrors(s, m, w) && WellFormed(w, item)
    requires item.1.Some? && KindOf(item.0, item.1.value) == "content_block_delta" && item.1.value.delta.Some?
    ensures Mirrors(Next(s, item).0, Assemble(m, Next(s, item).1), Describe(w, item))
  {
    hide TextOf, ToolsOf, Ascending, Assemble;
    NoneAssembled(m);
    var e, d := item.1.value, item.1.value.delta.value;
    var j := Find(w.blocks, e.index);
    if d.kind == "text_delta" {
      TextMirrored(s, m, w, j, d.text);
      AssembleOne(m, Next(s, item).1[0]);
    } else if d.kind == "input_json_delta" {
      if j < |w.blocks| {
        JsonMirrored(s, m, w, j, d.partialJson);
        if w.blocks[j].kind == "tool_use" {
          AssembleOne(m, Next(s, item).1[0]);
        }
      }
    } else if j < |w.blocks| {
      assert w.blocks[j := w.blocks[j]] == w.blocks;
    }
  }

  lemma StepMirrors(s: State, m: Message, w: Whole, item: Item)
    requires Mirrors(s, m, w) && WellFormed(w, item)
    ensures Mirrors(Next(s, item).0, Assemble(m, Next(s, item).1), Describe(w, item))
  {
    hide TextOf, ToolsOf, Find, Ascending, NumbersFit, Assemble;
    NoneAssembled(m);
    if item.1.Some? {
      var e := item.1.value;
      var kind := KindOf(item.0, e);
      if kind == "content_block_start" {
        StartMirrored(s, m, w, item);
      } else if kind == "content_block_delta" && e.delta.Some? {
        DeltaMirrored(s, m, w, item);
      } else {
        OtherMirrored(s, m, w, item);
      }
    }
  }

  lemma OtherMirrored(s: State, m: Message, w: Whole, item: Item)
    requires Mirrors(s, m, w) && item.1.Some? && KindOf(item.0, item.1.value) != "content_block_start"
    requires KindOf(item.0, item.1.value) != "content_block_delta" || item.1.value.delta.None?
    ensures Mirrors(Next(s, item).0, Assemble(m, Next(s, item).1), Describe(w, item))
  {
    hide TextOf, ToolsOf, Find, Ascending, NumbersFit, Assemble, Step, FinishReason, FinishOfResponse;
    NoneAssembled(m);
    OtherShape(s, item.0, item.1.value);
    var chunks := Next(s, item).1;
    if chunks != [] {
      assert chunks == [chunks[0]];
      AssembleOne(m, chunks[0]);
    }
    SameNumbers(s, Next(s, item).0, w.blocks);
  }

  lemma OtherShape(s: State, name: string, e: Event)
    requires KindOf(name, e) != "content_block_start"
    requires KindOf(name, e) != "content_block_delta" || e.delta.None?
    ensures
      var (s', chunks) := Step(s, name, e);
      var stops := KindOf(name, e) == "message_delta" && e.delta.Some? && e.delta.value.stopReason != "";
      && s'.tools == s.tools && s'.nextTool == s.nextTool && |chunks| <= 1
      && (chunks != [] ==> chunks[0].content.None? && chunks[0].tool.None?)
      && (stops ==> chunks != [] && chunks[0].finish == Some(FinishOfResponse(e.delta.value.stopReason)))
      && (!stops && chunks != [] ==> chunks[0].finish.None?)
  {
    hide NonNegative;
  }

  lemma {:induction false} RunMirrors(s: State, m: Message, w: Whole, items: seq<Item>)
    requires Mirrors(s, m, w) && AllWellFormed(w, items)
    ensures Mirrors(Run(s, items).0, Assemble(m, Run(s, items).1), DescribeAll(w, items))
    decreases |items|
  {
    hide Mirrors, Next, Describe, WellFormed, Assemble;
    NoneAssembled(m);
    if items != [] {
      var (s1, first) := Next(s, items[0]);
      StepMirrors(s, m, w, items[0]);
      RunMirrors(s1, Assemble(m, first), Describe(w, items[0]), items[1..]);
      AssembleAppend(m, first, Run(s1, items[1..]).1);
    }
  }

  // ----- exactly when ------------------------------------------------------

  /** From a state in which the client is up to date, it stays so exactly when the
      next piece of text commutes with what comes after it. */
  lemma TextKeepsUpExactly(s: State, m: Message, w: Whole, item: Item)
    requires Mirrors(s, m, w) && InSequence(w, item)
    ensures Assemble(m, Next(s, item).1).text == TextOf(Describe(w, item).blocks) <==> Commutes(w, item)
  {
    hide *;
    if Commutes(w, item) {
      WellFormedIs(w, item);
      StepMirrors(s, m, w, item);
      MirrorsText(Next(s, item).0, Assemble(m, Next(s, item).1), Describe(w, item));
    } else {
      TextFallsBehind(s, m, w, item);
    }
  }

  lemma WellFormedIs(w: Whole, item: Item)
    ensures WellFormed(w, item) <==> InSequence(w, item) && Commutes(w, item)
  {
  }

  lemma MirrorsText(s: State, m: Message, w: Whole)
    requires Mirrors(s, m, w)
    ensures m.text == TextOf(w.blocks)
  {
  }

  lemma TextFallsBehind(s: State, m: Message, w: Whole, item: Item)
    requires Mirrors(s, m, w) && InSequence(w, item) && !Commutes(w, item)
    ensures Assemble(m, Next(s, item).1).text != TextOf(Describe(w, item).blocks)
  {
    hide *;
    var text, j := TextBrought(s, m, w, item);
    MirrorsText(s, m, w);
    GrownText(w.blocks, j, text);
    Swap(TextOf(w.blocks[..j]) + w.blocks[j].text, text, TextOf(w.blocks[j + 1..]));
  }

  /** A piece of text out of turn, and the block it goes to. */
  lemma TextBrought(s: State, m: Message, w: Whole, item: Item) returns (text: string, j: nat)
    requires InSequence(w, item) && !Commutes(w, item)
    ensures j < |w.blocks| && w.blocks[j].kind == "text"
    ensures text + TextOf(w.blocks[j + 1..]) != TextOf(w.blocks[j + 1..]) + text
    ensures Describe(w, item).blocks == w.blocks[j := w.blocks[j].(text := w.blocks[j].text + text)]
    ensures Assemble(m, Next(s, item).1).text == m.text + text
  {
    hide TextOf, Assemble;
    text, j := item.1.value.delta.value.text, Find(w.blocks, item.1.value.index);
    AssembleOne(m, Next(s, item).1[0]);
  }

  lemma GrownText(blocks: seq<Block>, j: nat, text: string)
    requires j < |blocks| && blocks[j].kind == "text"
    ensures TextOf(blocks) == TextOf(blocks[..j]) + blocks[j].text + TextOf(blocks[j + 1..])
    ensures TextOf(blocks[j := blocks[j].(text := blocks[j].text + text)])
         == TextOf(blocks[..j]) + blocks[j].text + text + TextOf(blocks[j + 1..])
  {
    hide *;
    Replaced(blocks, j, blocks[j]);
    Replaced(blocks, j, blocks[j].(text := blocks[j].text + text));
    assert blocks[j := blocks[j]] == blocks;
    assert TextOf(blocks[..j]) + (blocks[j].text + text) == TextOf(blocks[..j]) + blocks[j].text + text;
  }

  /** After every event the client's text is that of the blocks so far. */
  predicate KeepsUp(s: State, m: Message, w: Whole, items: seq<Item>)
    decreases |items|
  {
    m.text == TextOf(w.blocks)
    && (items == [] ||
        KeepsUp(Next(s, items[0]).0, Assemble(m, Next(s, items[0]).1), Describe(w, items[0]), items[1..]))
  }

  lemma {:induction false} KeepsUpExactly(s: State, m: Message, w: Whole, items: seq<Item>)
    requires Mirrors(s, m, w) && AllInSequence(w, items)
    ensures KeepsUp(s, m, w, items) <==> AllWellFormed(w, items)
    decreases |items|
  {
    hide Mirrors, Next, Describe, InSequence, Commutes, WellFormed, Assemble, TextOf;
    MirrorsText(s, m, w);
    if items != [] {
      var (s1, chunks) := Next(s, items[0]);
      var w1 := Describe(w, items[0]);
      TextKeepsUpExactly(s, m, w, items[0]);
      WellFormedIs(w, items[0]);
      if Commutes(w, items[0]) {
        StepMirrors(s, m, w, items[0]);
        KeepsUpExactly(s1, Assemble(m, chunks), w1, items[1..]);
      } else {
        NotUpNow(s1, Assemble(m, chunks), w1, items[1..]);
      }
    }
  }

  lemma NotUpNow(s: State, m: Message, w: Whole, items: seq<Item>)
    requires m.text != TextOf(w.blocks)
    ensures !KeepsUp(s, m, w, items)
  {
  }

  /** For a stream whose blocks open in order, the client has the text of the whole
      message at every moment exactly when every piece of text commutes with the
      text that stands after it. */
  lemma StreamKeepsUpExactly(items: seq<Item>)
    requires AllInSequence(Whole([], ""), items)
    ensures KeepsUp(INITIAL, EMPTY, Whole([], ""), items) <==> AllWellFormed(Whole([], ""), items)
  {
    NoBlocks();
    KeepsUpExactly(INITIAL, EMPTY, Whole([], ""), items);
  }

  /** For every well-formed sequence of events the client assembles from the
      translated chunks the message that translating the whole response gives: the
      same text, the same calls in the same order with the same input, and, if the
      provider said why it stopped, the same finish reason. */
  lemma StreamedIsWhole(items: seq<Item>, compact: string -> string)
    requires AllWellFormed(Whole([], ""), items)
    ensures
      var streamed := Assemble(EMPTY, Run(INITIAL, items).1);
      var w := DescribeAll(Whole([], ""), items);
      var whole := Message(TextOf(w.blocks), Encoded(compact, ToolsOf(w.blocks)), Some(FinishOfResponse(w.stop)));
      && streamed.text == whole.text
      && Encoded(compact, streamed.tools) == whole.tools
      && (streamed.finish == whole.finish <==> w.stop != "")
  {
    NoBlocks();
    RunMirrors(INITIAL, EMPTY, Whole([], ""), items);
  }

  /** The arguments differ in their bytes where they were not written compactly, and
      where a call has no input at all. */
  lemma {:induction false} SameBytesExactly(compact: string -> string, calls: seq<ToolCall>)
    ensures Encoded(compact, calls) == calls <==> forall c :: c in calls ==> compact(InputOf(c.args)) == c.args
  {
    if calls != [] {
      SameBytesExactly(compact, calls[1..]);
      var encoded := Encoded(compact, calls);
      assert encoded[1..] == Encoded(compact, calls[1..]);
      assert calls == [calls[0]] + calls[1..];
      if encoded == calls {
        assert encoded[0] == calls[0] && encoded[1..] == calls[1..];
      }
    }
  }

  // ----- usage -------------------------------------------------------------

  /** The streamed prompt total counts the cache, that of a whole response does
      not: they agree exactly when the cache was not used. */
  lemma PromptTotalsAgreeExactly(s: State, m: Opening)
    requires m.usage.Some? && 0 <= m.usage.value.input
    ensures
      var u := m.usage.value;
      StreamedUsage(Started(s, Some(m))).prompt == u.input
      <==> NonNegative(u.cacheRead) == 0 && NonNegative(u.cacheCreation) == 0
  {
    hide Wrap;
    var u := m.usage.value;
    var cache := NonNegative(u.cacheRead) + NonNegative(u.cacheCreation);
    var prompt := Wrap(u.input + cache);
    assert (prompt - (u.input + cache)) % 0x1_0000_0000_0000_0000 == 0;
    if prompt == u.input && cache != 0 {
      NotAMultiple(cache);
      assert false;
    }
  }

  lemma NotAMultiple(n: int)
    requires 0 < n < 0x1_0000_0000_0000_0000
    ensures (-n) % 0x1_0000_0000_0000_0000 != 0
  {
  }
}
