/** What the generateContent translator keeps of a stream and puts on its chunks, in terms
    of the frames alone. */
module GeneratedLaw {
  import opened Basics
  import opened ChatClient
  import opened GoogleStream
  import Normalise

  // ----- names -------------------------------------------------------------

  predicate Identifies(item: Item) {
    item.Some? && item.value.responseId != ""
  }

  predicate NamesModel(item: Item) {
    item.Some? && item.value.modelVersion != ""
  }

  predicate Stops(item: Item) {
    item.Some? && item.value.candidate.Some? && item.value.candidate.value.finishReason != ""
  }

  lemma {:induction false} PartsKeepNames(s: State, parts: seq<Part>)
    ensures
      var s' := PartsStep(s, parts).0;
      s'.id == s.id && s'.model == s.model && s'.sawFinishReason == s.sawFinishReason
    decreases |parts|
  {
    if parts != [] {
      PartsKeepNames(s, parts[..|parts| - 1]);
    }
  }

  /** What one frame does to the names. */
  lemma NextNames(s: State, item: Item)
    ensures
      var s' := Next(s, item).0;
      && s'.id == (if s.id == "" && Identifies(item) then "chatcmpl-" + item.value.responseId else s.id)
      && s'.model == (if NamesModel(item) then item.value.modelVersion else s.model)
      && s'.sawFinishReason == (s.sawFinishReason || Stops(item))
  {
    hide PartsStep;
    if item.Some? && item.value.candidate.Some? {
      PartsKeepNames(Noted(s, item.value), item.value.candidate.value.parts);
    }
  }

  /** The name of a stream is made of the first identifier that a frame gives, and the
      model is the last that one names; and it was told to stop exactly if a frame said
      why. */
  lemma {:induction false} NamesAre(s: State, items: seq<Item>)
    ensures s.id != "" ==> Run(s, items).0.id == s.id
    ensures (forall x :: x in items ==> !NamesModel(x)) ==> Run(s, items).0.model == s.model
    ensures (forall x :: x in items ==> !Identifies(x)) ==> Run(s, items).0.id == s.id
    ensures Run(s, items).0.sawFinishReason <==> s.sawFinishReason || exists x :: x in items && Stops(x)
    decreases |items|
  {
    hide Next, Identifies, NamesModel, Stops;
    if items != [] {
      NextNames(s, items[0]);
      NamesAre(Next(s, items[0]).0, items[1..]);
      assert items == [items[0]] + items[1..];
    }
  }

  lemma IdIsTheFirst(before: seq<Item>, item: Item, after: seq<Item>)
    requires Identifies(item) && forall x :: x in before ==> !Identifies(x)
    ensures Run(INITIAL, before + [item] + after).0.id == "chatcmpl-" + item.value.responseId
  {
    hide Run, Next;
    var s := Run(INITIAL, before).0;
    AfterThat(INITIAL, before, item, after);
    NamesAre(INITIAL, before);
    NextNames(s, item);
    NamesAre(Next(s, item).0, after);
  }

  lemma ModelIsTheLast(before: seq<Item>, item: Item, after: seq<Item>)
    requires NamesModel(item) && forall x :: x in after ==> !NamesModel(x)
    ensures Run(INITIAL, before + [item] + after).0.model == item.value.modelVersion
  {
    hide Run, Next;
    var s := Run(INITIAL, before).0;
    AfterThat(INITIAL, before, item, after);
    NextNames(s, item);
    NamesAre(Next(s, item).0, after);
  }

  lemma AfterThat(s: State, before: seq<Item>, item: Item, after: seq<Item>)
    ensures Run(s, before + [item] + after).0 == Run(Next(Run(s, before).0, item).0, after).0
  {
    hide Run, Next;
    RunAppend(s, before + [item], after);
    RunAppend(s, before, [item]);
    RunOne(Run(s, before).0, item);
  }

  // ----- chunks ------------------------------------------------------------

  /** What a part says: a call whole, under its id and name and with the empty object
      for no arguments, or else its text, if it has any. */
  lemma PartSays(s: State, p: Part)
    ensures PartStep(s, p).1
         == match p.call
            case Some(FunctionCall(id, name, args)) =>
              [Chunk(s.id, s.model, !s.sentRole, None,
                 Some(ToolDelta(s.toolCalls, Some((id, name)), if args == "" then "{}" else args)), None)]
            case None => if p.text == "" then [] else [Chunk(s.id, s.model, !s.sentRole, Some(p.text), None, None)]
    ensures PartStep(s, p).0.toolCalls == s.toolCalls + if p.call.Some? then 1 else 0
  {
  }

  /** The reasons a stream gives for its end, and those of a whole response. */
  lemma ReasonsAre(toolCalls: nat, reason: string)
    ensures FinishReason(toolCalls, reason)
         == if toolCalls > 0 then "tool_calls"
            else if reason == "MAX_TOKENS" then "length"
            else if reason in ["SAFETY", "RECITATION", "BLOCKLIST", "PROHIBITED_CONTENT", "SPII"] then "content_filter"
            else "stop"
    ensures FinishOfResponse(reason)
         == if reason == "MAX_TOKENS" then "length"
            else if reason in ["SAFETY", "RECITATION"] then "content_filter"
            else "stop"
  {
  }

  // ----- usage -------------------------------------------------------------

  /** The usage block of a stream whose last usage is given: the prompt, or what was
      cached if that is more, what came out with the thoughts, and the two together. */
  lemma UsageOfStream(s: State, u: Normalise.GoogleUsage)
    requires s.lastUsage == Some(Normalise.WithUsage(u)) && Normalise.NonNegativeGoogle(u)
    requires u.candidates + u.thoughts <= MAX_INT64
    ensures
      var prompt := Max(u.prompt, u.cached);
      && StreamedUsage(s).Some?
      && StreamedUsage(s).value.prompt == prompt
      && StreamedUsage(s).value.completion == u.candidates + u.thoughts
      && (prompt + u.candidates + u.thoughts <= MAX_INT64 ==>
            StreamedUsage(s).value.total == prompt + u.candidates + u.thoughts)
  {
    hide Wrap, Normalise.FromGoogle;
    Normalise.GoogleKinds(u);
  }
}
