/** What the Messages translator keeps of a stream and puts on its chunks, in terms of
    the events alone. */
module MessagesLaw {
  import opened Basics
  import opened ChatClient
  import opened AnthropicStream

  // ----- the events that matter --------------------------------------------

  /** The event could be parsed and is of the kind, by its own field or, if that is
      empty, by the name of its frame. */
  predicate IsKind(item: Item, kind: string) {
    item.1.Some? && (if item.1.value.kind == "" then item.0 else item.1.value.kind) == kind
  }

  /** It opens the message with a count of what went in. */
  predicate Opens(item: Item) {
    IsKind(item, "message_start") && item.1.value.message.Some? && item.1.value.message.value.usage.Some?
  }

  predicate Names(item: Item) {
    IsKind(item, "message_start") && item.1.value.message.Some?
  }

  /** It carries a count of what came out. */
  predicate Counts(item: Item) {
    IsKind(item, "message_delta") && item.1.value.usage.Some?
  }

  function AtLeastZero(n: Int64): Int64 {
    if 0 <= n then n else 0
  }

  // ----- counts ------------------------------------------------------------

  /** What one item does to the counts. */
  lemma NextCounts(s: State, item: Item)
    ensures
      var s' := Next(s, item).0;
      && s'.output == (if Counts(item) then AtLeastZero(item.1.value.usage.value.output) else s.output)
      && s'.sawUsage == (s.sawUsage || Counts(item)) && s'.sawStop == (s.sawStop || IsKind(item, "message_stop"))
    ensures
      var s' := Next(s, item).0;
      if Opens(item) then
        var u := item.1.value.message.value.usage.value;
        && s'.input == AtLeastZero(u.input) && s'.cacheRead == AtLeastZero(u.cacheRead)
        && s'.cacheWrite == AtLeastZero(u.cacheCreation)
      else s'.input == s.input && s'.cacheRead == s.cacheRead && s'.cacheWrite == s.cacheWrite
    ensures
      var s' := Next(s, item).0;
      if Names(item) then s'.id == item.1.value.message.value.id && s'.model == item.1.value.message.value.model
      else s'.id == s.id && s'.model == s.model
  {
    hide *;
    KindsApart(item);
    CasesAre(item);
    if IsKind(item, "message_start") {
      StartStep(s, item);
      StartedIs(s, item.1.value.message);
    } else if IsKind(item, "message_delta") {
      DeltaStep(s, item);
      if Counts(item) {
        SameFloor(item.1.value.usage.value.output);
      }
    } else {
      OtherStep(s, item);
    }
  }

  lemma CasesAre(item: Item)
    ensures Names(item) <==> IsKind(item, "message_start") && item.1.Some? && item.1.value.message.Some?
    ensures Opens(item) <==> Names(item) && item.1.value.message.value.usage.Some?
    ensures Counts(item) <==> IsKind(item, "message_delta") && item.1.Some? && item.1.value.usage.Some?
    ensures IsKind(item, "message_start") || IsKind(item, "message_delta") ==> item.1.Some?
  {
  }

  /** An event is of one kind. */
  lemma KindsApart(item: Item)
    ensures IsKind(item, "message_start") ==> !IsKind(item, "message_delta") && !IsKind(item, "message_stop")
    ensures IsKind(item, "message_delta") ==> !IsKind(item, "message_stop")
  {
    assert "message_start"[8] != "message_delta"[8] && |"message_stop"| == 12 && |"message_delta"| == 13;
    assert |"message_start"| == 13;
  }

  lemma SameFloor(n: Int64)
    ensures NonNegative(n) == AtLeastZero(n)
  {
  }

  lemma StartedIs(s: State, m: Option<Opening>)
    ensures
      var s' := Started(s, m);
      && s'.output == s.output && s'.sawUsage == s.sawUsage && s'.sawStop == s.sawStop
      && (if m.Some? then s'.id == m.value.id && s'.model == m.value.model else s'.id == s.id && s'.model == s.model)
      && if m.Some? && m.value.usage.Some? then
           var u := m.value.usage.value;
           && s'.input == AtLeastZero(u.input) && s'.cacheRead == AtLeastZero(u.cacheRead)
           && s'.cacheWrite == AtLeastZero(u.cacheCreation)
         else s'.input == s.input && s'.cacheRead == s.cacheRead && s'.cacheWrite == s.cacheWrite
  {
  }

  lemma StartStep(s: State, item: Item)
    requires IsKind(item, "message_start")
    ensures
      var s' := Started(s, item.1.value.message);
      Next(s, item) == (s', [Chunk(s'.id, s'.model, true, None, None, None)])
  {
    hide Started, OpenBlock, PassPiece, EndMessage;
  }

  lemma DeltaStep(s: State, item: Item)
    requires IsKind(item, "message_delta")
    ensures
      var usage := item.1.value.usage;
      Next(s, item).0
      == if usage.None? then s else s.(output := NonNegative(usage.value.output), sawUsage := true)
  {
    hide NonNegative, Started, FinishReason, OpenBlock, PassPiece;
  }

  /** The other events count and open nothing. */
  lemma OtherStep(s: State, item: Item)
    requires !IsKind(item, "message_start") && !IsKind(item, "message_delta")
    ensures
      var s' := Next(s, item).0;
      s' == s.(kinds := s'.kinds, tools := s'.tools, nextTool := s'.nextTool,
               sawStop := s.sawStop || IsKind(item, "message_stop"))
  {
    hide Started, OpenBlock, PassPiece, EndMessage;
    if item.1.Some? {
      OpenBlockKeeps(s, item.1.value);
    }
  }

  lemma OpenBlockKeeps(s: State, e: Event)
    ensures
      var (s', chunks) := OpenBlock(s, e);
      && s' == s.(kinds := s'.kinds, tools := s'.tools, nextTool := s'.nextTool)
      && forall c :: c in chunks ==> c.id == s.id && c.model == s.model && !c.role
  {
  }

  lemma OthersKeep(s: State, e: Event)
    ensures forall c :: c in PassPiece(s, e) ==> c.id == s.id && c.model == s.model && !c.role
    ensures
      var (s', chunks) := EndMessage(s, e);
      && s'.id == s.id && s'.model == s.model
      && forall c :: c in chunks ==> c.id == s.id && c.model == s.model && !c.role
  {
    hide FinishReason, NonNegative;
  }

  lemma {:induction false} RunAppend(s: State, a: seq<Item>, b: seq<Item>)
    ensures Run(s, a + b).0 == Run(Run(s, a).0, b).0
    decreases |a|
  {
    hide *;
    RunUnfolds(s, a);
    RunUnfolds(s, a + b);
    if a == [] {
      assert a + b == b;
    } else {
      RunAppend(Next(s, a[0]).0, a[1..], b);
      assert (a + b)[0] == a[0] && (a + b)[1..] == a[1..] + b;
    }
  }

  lemma RunUnfolds(s: State, items: seq<Item>)
    ensures Run(s, items).0 == if items == [] then s else Run(Next(s, items[0]).0, items[1..]).0
  {
    hide Next;
  }

  lemma RunOne(s: State, item: Item)
    ensures Run(s, [item]).0 == Next(s, item).0
  {
    assert [item][1..] == [];
  }

  /** Events that do not count, open or name leave what was counted, opened or named. */
  lemma {:induction false} Unmoved(s: State, items: seq<Item>)
    ensures
      var s' := Run(s, items).0;
      && ((forall x :: x in items ==> !Counts(x)) ==> s'.output == s.output)
      && ((forall x :: x in items ==> !Opens(x)) ==>
            s'.input == s.input && s'.cacheRead == s.cacheRead && s'.cacheWrite == s.cacheWrite)
      && ((forall x :: x in items ==> !Names(x)) ==> s'.id == s.id && s'.model == s.model)
    decreases |items|
  {
    hide Next, Counts, Opens, Names;
    if items != [] {
      NextCounts(s, items[0]);
      Unmoved(Next(s, items[0]).0, items[1..]);
      assert items[0] in items && forall x :: x in items[1..] ==> x in items;
    }
  }

  lemma AfterThat(s: State, before: seq<Item>, item: Item, after: seq<Item>)
    ensures
      var s' := Next(Run(s, before).0, item).0;
      Run(s, before + [item] + after).0 == Run(s', after).0
  {
    hide Run, Next;
    RunAppend(s, before + [item], after);
    RunAppend(s, before, [item]);
    RunOne(Run(s, before).0, item);
  }

  /** The output of a stream is that of the last event that counted it. */
  lemma OutputIsTheLast(s: State, before: seq<Item>, item: Item, after: seq<Item>)
    requires Counts(item) && forall x :: x in after ==> !Counts(x)
    ensures Run(s, before + [item] + after).0.output == AtLeastZero(item.1.value.usage.value.output)
  {
    hide Run, Next;
    var s1 := Run(s, before).0;
    AfterThat(s, before, item, after);
    NextCounts(s1, item);
    Unmoved(Next(s1, item).0, after);
  }

  /** What went in is what the last opening with a count says. */
  lemma InputIsTheLast(s: State, before: seq<Item>, item: Item, after: seq<Item>)
    requires Opens(item) && forall x :: x in after ==> !Opens(x)
    ensures
      var s', u := Run(s, before + [item] + after).0, item.1.value.message.value.usage.value;
      && s'.input == AtLeastZero(u.input) && s'.cacheRead == AtLeastZero(u.cacheRead)
      && s'.cacheWrite == AtLeastZero(u.cacheCreation)
  {
    hide Run, Next;
    var s1 := Run(s, before).0;
    AfterThat(s, before, item, after);
    NextCounts(s1, item);
    Unmoved(Next(s1, item).0, after);
  }

  lemma NameIsTheLast(s: State, before: seq<Item>, item: Item, after: seq<Item>)
    requires Names(item) && forall x :: x in after ==> !Names(x)
    ensures
      var s', m := Run(s, before + [item] + after).0, item.1.value.message.value;
      s'.id == m.id && s'.model == m.model
  {
    hide Run, Next;
    var s1 := Run(s, before).0;
    AfterThat(s, before, item, after);
    NextCounts(s1, item);
    Unmoved(Next(s1, item).0, after);
  }

  /** Usage was seen exactly if an event counted it, and the stop exactly if one said so. */
  lemma {:induction false} SeenExactly(s: State, items: seq<Item>)
    ensures Run(s, items).0.sawUsage <==> s.sawUsage || exists x :: x in items && Counts(x)
    ensures Run(s, items).0.sawStop <==> s.sawStop || exists x :: x in items && IsKind(x, "message_stop")
    decreases |items|
  {
    hide Next, Counts, IsKind, Opens, Names;
    if items != [] {
      NextCounts(s, items[0]);
      SeenExactly(Next(s, items[0]).0, items[1..]);
      assert items == [items[0]] + items[1..];
    }
  }

  /** The usage block of a stream: the sum of what its last opening says went in, what
      its last count says came out, and the two together. */
  lemma UsageOfStream(a: seq<Item>, opening: Item, b: seq<Item>, c: seq<Item>, closing: Item, d: seq<Item>)
    requires a + [opening] + b == c + [closing] + d
    requires Opens(opening) && forall x :: x in b ==> !Opens(x)
    requires Counts(closing) && forall x :: x in d ==> !Counts(x)
    ensures
      var block := StreamedUsage(Run(INITIAL, a + [opening] + b).0);
      var u := opening.1.value.message.value.usage.value;
      var prompt := AtLeastZero(u.input) as int + AtLeastZero(u.cacheRead) as int + AtLeastZero(u.cacheCreation) as int;
      var output := AtLeastZero(closing.1.value.usage.value.output);
      && block.completion == output
      && (prompt <= MAX_INT64 ==> block.prompt == prompt)
      && (prompt + output <= MAX_INT64 ==> block.total == prompt + output)
  {
    hide Run, Opens, Counts, Wrap;
    InputIsTheLast(INITIAL, a, opening, b);
    OutputIsTheLast(INITIAL, c, closing, d);
  }

  // ----- chunks ------------------------------------------------------------

  /** Every chunk carries the name and model of the message, as they are after the event
      that gave it; the role is on those that open a message. */
  lemma ChunksAreStamped(s: State, item: Item)
    ensures
      var (s', chunks) := Next(s, item);
      forall c :: c in chunks ==>
        && c.id == s'.id && c.model == s'.model
        && (c.role <==> IsKind(item, "message_start"))
  {
    hide *;
    if IsKind(item, "message_start") {
      StartStep(s, item);
    } else {
      OtherChunks(s, item);
    }
  }

  lemma OtherChunks(s: State, item: Item)
    requires !IsKind(item, "message_start")
    ensures
      var (s', chunks) := Next(s, item);
      && s'.id == s.id && s'.model == s.model
      && forall c :: c in chunks ==> c.id == s.id && c.model == s.model && !c.role
  {
    hide Started, OpenBlock, PassPiece, EndMessage;
    if item.1.Some? {
      OpenBlockKeeps(s, item.1.value);
      OthersKeep(s, item.1.value);
    }
  }

  /** What the chunks say: a block that is a tool call opens the next call under its id
      and name; a piece of text is passed on, and a piece of a call's input to the call
      that its block opened; the closing event tells the reason. Nothing else is said. */
  lemma ChunksSay(s: State, e: Event)
    ensures OpenBlock(s, e).1
         == (if e.block.Some? && e.block.value.kind == "tool_use" then
               var b := e.block.value;
               [Chunk(s.id, s.model, false, None, Some(ToolDelta(s.nextTool, Some((b.id, b.name)), "")), None)]
             else [])
    ensures e.block.Some? && e.block.value.kind == "tool_use" ==>
      e.index in OpenBlock(s, e).0.tools && OpenBlock(s, e).0.tools[e.index] == s.nextTool
    ensures PassPiece(s, e)
         == (if e.delta.None? then []
             else if e.delta.value.kind == "text_delta" then
               [Chunk(s.id, s.model, false, Some(e.delta.value.text), None, None)]
             else if e.delta.value.kind == "input_json_delta" && e.index in s.tools then
               var piece := ToolDelta(s.tools[e.index], None, e.delta.value.partialJson);
               [Chunk(s.id, s.model, false, None, Some(piece), None)]
             else [])
    ensures EndMessage(s, e).1
         == (if e.delta.None? || e.delta.value.stopReason == "" then []
             else [Chunk(s.id, s.model, false, None, None, Some(FinishReason(e.delta.value.stopReason)))])
  {
    hide FinishReason, NonNegative;
  }

  /** A call for which no input came has the empty object for it, one with some that. */
  lemma {:induction false} InputsAre(compact: string -> string, calls: seq<ToolCall>)
    ensures |Encoded(compact, calls)| == |calls|
    ensures forall i :: 0 <= i < |calls| ==>
      Encoded(compact, calls)[i]
      == ToolCall(calls[i].id, calls[i].name, compact(if calls[i].args == "" then "{}" else calls[i].args))
  {
    if calls != [] {
      InputsAre(compact, calls[1..]);
    }
  }

  /** The reasons a stream gives for its end, and those of a whole response. */
  lemma ReasonsAre(stop: string)
    ensures FinishReason(stop) == FinishOfResponse(stop)
    ensures FinishReason(stop)
         == if stop == "max_tokens" then "length" else if stop == "tool_use" then "tool_calls" else "stop"
  {
  }
}
