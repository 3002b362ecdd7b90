/** Chat-completion chunks, and the message that a client puts together from them. */
module ChatClient {
  import opened Basics

  /** A fragment of a tool call; the first one names it. */
  datatype ToolDelta = ToolDelta(index: nat, head: Option<(string, string)>, args: string)

  datatype Chunk = Chunk(
    id: string, model: string, role: bool,
    content: Option<string>, tool: Option<ToolDelta>, finish: Option<string>)

  datatype ToolCall = ToolCall(id: string, name: string, args: string)

  datatype Message = Message(text: string, tools: seq<ToolCall>, finish: Option<string>)

  const EMPTY: Message := Message("", [], None)

  /** A fragment belongs to a call that is known, or opens the next one. */
  predicate Expected(tools: seq<ToolCall>, d: ToolDelta) {
    if d.head.Some? then d.index == |tools| else d.index < |tools|
  }

  function WithTool(tools: seq<ToolCall>, d: ToolDelta): seq<ToolCall> {
    if d.index < |tools| then tools[d.index := tools[d.index].(args := tools[d.index].args + d.args)]
    else if d.head.Some? then tools + [ToolCall(d.head.value.0, d.head.value.1, d.args)]
    else tools
  }

  function Take(m: Message, c: Chunk): Message {
    Message(
      if c.content.Some? then m.text + c.content.value else m.text,
      if c.tool.Some? then WithTool(m.tools, c.tool.value) else m.tools,
      if c.finish.Some? then c.finish else m.finish)
  }

  function Assemble(m: Message, chunks: seq<Chunk>): Message
    decreases |chunks|
  {
    if chunks == [] then m else Assemble(Take(m, chunks[0]), chunks[1..])
  }

  /** No chunk of the stream speaks of a tool call out of turn. */
  predicate InTurn(m: Message, chunks: seq<Chunk>)
    decreases |chunks|
  {
    chunks == []
    || ((chunks[0].tool.Some? ==> Expected(m.tools, chunks[0].tool.value)) && InTurn(Take(m, chunks[0]), chunks[1..]))
  }

  lemma {:induction false} AssembleAppend(m: Message, a: seq<Chunk>, b: seq<Chunk>)
    ensures Assemble(m, a + b) == Assemble(Assemble(m, a), b)
    ensures InTurn(m, a + b) <==> InTurn(m, a) && InTurn(Assemble(m, a), b)
    decreases |a|
  {
    if a == [] {
      assert a + b == b;
    } else {
      AssembleAppend(Take(m, a[0]), a[1..], b);
      assert (a + b)[0] == a[0] && (a + b)[1..] == a[1..] + b;
    }
  }

  lemma AssembleOne(m: Message, c: Chunk)
    ensures Assemble(m, [c]) == Take(m, c)
    ensures InTurn(m, [c]) <==> (c.tool.Some? ==> Expected(m.tools, c.tool.value))
  {
    assert [c][1..] == [];
  }
}
