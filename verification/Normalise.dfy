/** From a provider's usage block to counts per billing class. */
module Normalise {
  import opened Basics
  import opened PriceTable

  // ----- what the providers send -------------------------------------------

  datatype Payload<U> = Garbled | WithoutUsage | WithUsage(usage: U)

  datatype Outcome = Read | ParseFailed | NoUsage

  datatype PromptDetails = PromptDetails(cached: Int64, cacheWrite: Int64)

  datatype OpenAIUsage = OpenAIUsage(
    promptTokens: Int64, completionTokens: Int64, inputTokens: Int64, outputTokens: Int64,
    promptDetails: Option<PromptDetails>, inputDetails: Option<PromptDetails>,
    completionReasoning: Option<Int64>, outputReasoning: Option<Int64>)

  datatype Split = Split(ephemeral5m: Int64, ephemeral1h: Int64)

  datatype AnthropicUsage = AnthropicUsage(
    input: Int64, output: Int64, cacheRead: Int64, cacheCreation: Int64, split: Option<Split>)

  datatype GoogleUsage = GoogleUsage(prompt: Int64, candidates: Int64, cached: Int64, thoughts: Int64)

  function OutcomeOf<U>(p: Payload<U>): Outcome {
    match p
    case Garbled => ParseFailed
    case WithoutUsage => NoUsage
    case WithUsage(_) => Read
  }

  // ----- counts that can be degraded ---------------------------------------

  datatype Figures = Figures(counts: Counts, degraded: bool, parseErrors: nat)

  const EMPTY: Figures := Figures(map[], false, 0)

  function Degraded(f: Figures, when: bool): Figures {
    if when then Figures(f.counts, true, f.parseErrors + 1) else f
  }

  function Negative(c: Counts): set<Kind> {
    set k | k in c && c[k] < 0
  }

  function NotBelowZero(c: Counts): Counts {
    map k | k in c :: if c[k] < 0 then 0 else c[k]
  }

  /** Every negative count becomes zero and degrades the result once. */
  function Clamped(f: Figures): Figures {
    Figures(NotBelowZero(f.counts), f.degraded || Negative(f.counts) != {}, f.parseErrors + |Negative(f.counts)|)
  }

  function Zeroed(c: Counts, seen: set<Kind>): Counts {
    map k | k in c :: if k in seen then 0 else c[k]
  }

  /** What clamping has come to once the counts of `left` are all that is left. */
  function ClampedBut(f: Figures, left: set<Kind>): Figures {
    var seen := Negative(f.counts) - left;
    Figures(Zeroed(f.counts, seen), f.degraded || seen != {}, f.parseErrors + |seen|)
  }

  lemma NothingClamped(f: Figures)
    ensures ClampedBut(f, f.counts.Keys) == f && ClampedBut(f, {}) == Clamped(f)
  {
    hide Zeroed, Negative, NotBelowZero;
    NegativeAreKeys(f.counts);
    ZeroedAll(f.counts);
    assert Negative(f.counts) - f.counts.Keys == {};
    assert Negative(f.counts) - {} == Negative(f.counts);
  }

  lemma NegativeAreKeys(c: Counts)
    ensures Negative(c) <= c.Keys && forall k :: k in c ==> (k in Negative(c) <==> c[k] < 0)
  {
  }

  lemma ZeroedAll(c: Counts)
    ensures Zeroed(c, {}) == c && Zeroed(c, Negative(c)) == NotBelowZero(c)
  {
  }

  lemma ZeroedOneMore(c: Counts, seen: set<Kind>, k: Kind)
    requires k in c && k !in seen
    ensures Zeroed(c, seen).Keys == c.Keys && Zeroed(c, seen)[k] == c[k]
    ensures Zeroed(c, seen + {k}) == Zeroed(c, seen)[k := 0]
  {
  }

  lemma OneMoreClamped(f: Figures, left: set<Kind>, k: Kind)
    requires k in left && left <= f.counts.Keys
    ensures ClampedBut(f, left).counts.Keys == f.counts.Keys && ClampedBut(f, left).counts[k] == f.counts[k]
    ensures
      var c := ClampedBut(f, left);
      ClampedBut(f, left - {k})
      == if f.counts[k] < 0 then Figures(c.counts[k := 0], true, c.parseErrors + 1) else c
  {
    hide Zeroed, Negative;
    var seen := Negative(f.counts) - left;
    NegativeAreKeys(f.counts);
    ZeroedOneMore(f.counts, seen, k);
    assert Negative(f.counts) - (left - {k}) == if f.counts[k] < 0 then seen + {k} else seen;
  }

  class Normalised {
    var counts: Counts
    var degraded: bool
    var parseErrors: nat

    ghost function Contents(): Figures
      reads this
    {
      Figures(counts, degraded, parseErrors)
    }

    constructor ()
      ensures Contents() == EMPTY
    {
      counts, degraded, parseErrors := map[], false, 0;
    }

    method Degrade()
      modifies this`degraded, this`parseErrors
      ensures degraded && parseErrors == old(parseErrors) + 1
    {
      degraded, parseErrors := true, parseErrors + 1;
    }

    method ClampNegative()
      modifies this
      ensures Contents() == Clamped(old(Contents()))
    {
      hide ClampedBut, Clamped;
      var kinds := counts.Keys;
      ghost var before := Contents();
      NothingClamped(before);
      while kinds != {}
        invariant kinds <= before.counts.Keys && Contents() == ClampedBut(before, kinds)
        decreases kinds
      {
        var k :| k in kinds;
        OneMoreClamped(before, kinds, k);
        if counts[k] < 0 {
          Degrade();
          counts := counts[k := 0];
        }
        kinds := kinds - {k};
      }
    }
  }

  // ----- OpenAI ------------------------------------------------------------

  function PromptTotal(u: OpenAIUsage): Int64 {
    if u.promptTokens == 0 then u.inputTokens else u.promptTokens
  }

  function OutputTotal(u: OpenAIUsage): Int64 {
    if u.completionTokens == 0 then u.outputTokens else u.completionTokens
  }

  function DetailsOf(u: OpenAIUsage): PromptDetails {
    if u.promptDetails.Some? then u.promptDetails.value
    else if u.inputDetails.Some? then u.inputDetails.value
    else PromptDetails(0, 0)
  }

  function ReasoningOf(u: OpenAIUsage): Int64 {
    if u.completionReasoning.Some? then u.completionReasoning.value
    else if u.outputReasoning.Some? then u.outputReasoning.value
    else 0
  }

  /** The 64-bit difference, which can wrap when both parts are large. */
  function PlainOpenAI(u: OpenAIUsage): Int64 {
    Wrap(Wrap(PromptTotal(u) - DetailsOf(u).cached) - DetailsOf(u).cacheWrite)
  }

  function RawOpenAI(u: OpenAIUsage): Figures {
    var d := DetailsOf(u);
    var counts: Counts := map[
      Input := if PlainOpenAI(u) < 0 then 0 else PlainOpenAI(u),
      CachedRead := d.cached, CacheWrite5m := d.cacheWrite,
      Output := OutputTotal(u), Reasoning := ReasoningOf(u)];
    Degraded(Degraded(Figures(counts, false, 0), PlainOpenAI(u) < 0), ReasoningOf(u) > OutputTotal(u))
  }

  function FromOpenAI(u: OpenAIUsage): Figures {
    Clamped(RawOpenAI(u))
  }

  lemma RawOpenAIIs(u: OpenAIUsage, f: Figures)
    requires
      var plain := if PlainOpenAI(u) < 0 then 0 else PlainOpenAI(u);
      var none: Counts := map[];
      f.counts
      == none[Input := plain][CachedRead := DetailsOf(u).cached][CacheWrite5m := DetailsOf(u).cacheWrite]
           [Output := OutputTotal(u)][Reasoning := ReasoningOf(u)]
    requires f.degraded <==> PlainOpenAI(u) < 0 || ReasoningOf(u) > OutputTotal(u)
    requires f.parseErrors == (if PlainOpenAI(u) < 0 then 1 else 0) + (if ReasoningOf(u) > OutputTotal(u) then 1 else 0)
    ensures f == RawOpenAI(u)
  {
    hide PlainOpenAI, DetailsOf, OutputTotal, ReasoningOf;
  }

  /** The fields of a usage block, under either set of names. */
  method ReadOpenAI(u: OpenAIUsage)
      returns (promptTotal: int, outputTotal: int, cached: int, cacheWrite: int, reasoning: int)
    ensures promptTotal == PromptTotal(u) && outputTotal == OutputTotal(u) && reasoning == ReasoningOf(u)
    ensures cached == DetailsOf(u).cached && cacheWrite == DetailsOf(u).cacheWrite
  {
    promptTotal := u.promptTokens;
    if promptTotal == 0 {
      promptTotal := u.inputTokens;
    }
    outputTotal := u.completionTokens;
    if outputTotal == 0 {
      outputTotal := u.outputTokens;
    }
    cached, cacheWrite := 0, 0;
    if u.promptDetails.Some? {
      cached, cacheWrite := u.promptDetails.value.cached, u.promptDetails.value.cacheWrite;
    } else if u.inputDetails.Some? {
      cached, cacheWrite := u.inputDetails.value.cached, u.inputDetails.value.cacheWrite;
    }
    reasoning := 0;
    if u.completionReasoning.Some? {
      reasoning := u.completionReasoning.value;
    } else if u.outputReasoning.Some? {
      reasoning := u.outputReasoning.value;
    }
  }

  method NormaliseOpenAI(p: Payload<OpenAIUsage>) returns (outcome: Outcome, out: Normalised)
    ensures fresh(out)
    ensures outcome == match p case Garbled => ParseFailed case WithoutUsage => NoUsage case WithUsage(_) => Read
    ensures out.Contents() == if p.WithUsage? then FromOpenAI(p.usage) else EMPTY
  {
    hide Clamped, Wrap, RawOpenAI, Degraded, PromptTotal, OutputTotal, ReasoningOf, DetailsOf;
    out := new Normalised();
    outcome := OutcomeOf(p);
    if !p.WithUsage? {
      return;
    }
    var u := p.usage;
    var promptTotal, outputTotal, cached, cacheWrite, reasoning := ReadOpenAI(u);
    var plain := Wrap(Wrap(promptTotal - cached) - cacheWrite);
    if plain < 0 {
      out.Degrade();
      plain := 0;
    }
    out.counts := out.counts[Input := plain][CachedRead := cached][CacheWrite5m := cacheWrite]
      [Output := outputTotal][Reasoning := reasoning];
    if reasoning > outputTotal {
      out.Degrade();
    }
    RawOpenAIIs(u, out.Contents());
    out.ClampNegative();
  }

  // ----- Anthropic ---------------------------------------------------------

  function SplitSum(u: AnthropicUsage): Int64 {
    if u.split.None? then 0 else Wrap(u.split.value.ephemeral5m + u.split.value.ephemeral1h)
  }

  function RawAnthropic(u: AnthropicUsage): Figures {
    var counts: Counts := map[Input := u.input, CachedRead := u.cacheRead, Output := u.output];
    if u.split.Some? && (u.cacheCreation == 0 || SplitSum(u) == u.cacheCreation) then
      Figures(counts[CacheWrite5m := u.split.value.ephemeral5m][CacheWrite1h := u.split.value.ephemeral1h], false, 0)
    else if u.split.Some? then
      Figures(counts[CacheWrite5m := u.cacheCreation][CacheWrite1h := 0], true, 1)
    else if u.cacheCreation > 0 then
      Figures(counts[CacheWrite5m := u.cacheCreation], true, 1)
    else
      Figures(counts, false, 0)
  }

  function FromAnthropic(u: AnthropicUsage): Figures {
    Clamped(RawAnthropic(u))
  }

  method NormaliseAnthropic(p: Payload<AnthropicUsage>) returns (outcome: Outcome, out: Normalised)
    ensures fresh(out)
    ensures outcome == match p case Garbled => ParseFailed case WithoutUsage => NoUsage case WithUsage(_) => Read
    ensures out.Contents() == if p.WithUsage? then FromAnthropic(p.usage) else EMPTY
  {
    hide Clamped, Wrap;
    out := new Normalised();
    outcome := OutcomeOf(p);
    if !p.WithUsage? {
      return;
    }
    var u := p.usage;
    out.counts := out.counts[Input := u.input][CachedRead := u.cacheRead][Output := u.output];
    if u.split.Some? {
      var split := Wrap(u.split.value.ephemeral5m + u.split.value.ephemeral1h);
      if u.cacheCreation != 0 && split != u.cacheCreation {
        out.Degrade();
        out.counts := out.counts[CacheWrite5m := u.cacheCreation][CacheWrite1h := 0];
      } else {
        out.counts := out.counts[CacheWrite5m := u.split.value.ephemeral5m][CacheWrite1h := u.split.value.ephemeral1h];
      }
    } else if u.cacheCreation > 0 {
      out.Degrade();
      out.counts := out.counts[CacheWrite5m := u.cacheCreation];
    }
    assert out.Contents() == RawAnthropic(u);
    out.ClampNegative();
  }

  // ----- Google ------------------------------------------------------------

  function RawGoogle(u: GoogleUsage): Figures {
    var plain := Wrap(u.prompt - u.cached);
    var counts: Counts := map[
      Input := if plain < 0 then 0 else plain, CachedRead := u.cached,
      Output := Wrap(u.candidates + u.thoughts), Reasoning := u.thoughts];
    Degraded(Figures(counts, false, 0), plain < 0)
  }

  function FromGoogle(u: GoogleUsage): Figures {
    Clamped(RawGoogle(u))
  }

  method NormaliseGoogle(p: Payload<GoogleUsage>) returns (outcome: Outcome, out: Normalised)
    ensures fresh(out)
    ensures outcome == match p case Garbled => ParseFailed case WithoutUsage => NoUsage case WithUsage(_) => Read
    ensures out.Contents() == if p.WithUsage? then FromGoogle(p.usage) else EMPTY
  {
    hide Clamped, Wrap;
    out := new Normalised();
    outcome := OutcomeOf(p);
    if !p.WithUsage? {
      return;
    }
    var u := p.usage;
    var plain := Wrap(u.prompt - u.cached);
    if plain < 0 {
      out.Degrade();
      plain := 0;
    }
    out.counts := out.counts[Input := plain][CachedRead := u.cached]
      [Output := Wrap(u.candidates + u.thoughts)][Reasoning := u.thoughts];
    assert out.Contents() == RawGoogle(u);
    out.ClampNegative();
  }

  // ----- what holds of the results -----------------------------------------

  predicate Sound(f: Figures) {
    && (forall k :: k in f.counts ==> 0 <= f.counts[k])
    && (f.degraded <==> f.parseErrors > 0)
  }

  lemma ClampedIsSound(f: Figures)
    requires f.degraded <==> f.parseErrors > 0
    ensures Sound(Clamped(f))
  {
    if Negative(f.counts) != {} {
      var k :| k in Negative(f.counts);
      assert Negative(f.counts) == (Negative(f.counts) - {k}) + {k};
    }
  }

  /** Whatever a provider sends, no count is negative, and the result says that it
      is degraded exactly when something was wrong. */
  lemma NeverNegative(o: OpenAIUsage, a: AnthropicUsage, g: GoogleUsage)
    ensures Sound(FromOpenAI(o)) && Sound(FromAnthropic(a)) && Sound(FromGoogle(g))
  {
    hide Wrap;
    ClampedIsSound(RawOpenAI(o));
    ClampedIsSound(RawAnthropic(a));
    ClampedIsSound(RawGoogle(g));
  }

  /** So the price of normalised usage is never refused for a negative count. */
  lemma SoundUsageIsPriced(t: Table, model: string, provider: string, tier: Tier, at: Time, f: Figures)
    requires Sound(f)
    ensures !CostOf(t, model, provider, tier, at, f.counts).NegativeCount?
  {
  }

  /** With nothing negative, clamping does nothing. */
  lemma ClampedUnchanged(f: Figures)
    requires forall k :: k in f.counts ==> 0 <= f.counts[k]
    ensures Clamped(f) == f
  {
    assert NotBelowZero(f.counts) == f.counts;
    assert Negative(f.counts) == {};
  }

  predicate NonNegativeOpenAI(u: OpenAIUsage) {
    && 0 <= PromptTotal(u) && 0 <= OutputTotal(u) && 0 <= ReasoningOf(u)
    && 0 <= DetailsOf(u).cached && 0 <= DetailsOf(u).cacheWrite
  }

  /** For non-negative fields the parts on the input side add up to the prompt
      total, or to the cached tokens if there are more of those, exactly when the
      subtraction does not wrap; and the result is degraded exactly when the
      64-bit difference is negative or the reasoning exceeds the output. */
  lemma OpenAIParts(u: OpenAIUsage)
    requires NonNegativeOpenAI(u)
    ensures
      var f, d := FromOpenAI(u), DetailsOf(u);
      && (InputTokens(f.counts) == Max(PromptTotal(u), d.cached + d.cacheWrite)
          <==> d.cached + d.cacheWrite - PromptTotal(u) <= MAX_INT64 + 1)
      && (f.degraded
          <==> (0 < d.cached + d.cacheWrite - PromptTotal(u) <= MAX_INT64 + 1) || ReasoningOf(u) > OutputTotal(u))
      && Count(f.counts, Output) == OutputTotal(u)
      && (!f.degraded ==> Count(f.counts, Reasoning) <= Count(f.counts, Output))
  {
    hide *;
    OpenAIFigures(u);
    PlainIs(u);
  }

  lemma OpenAIFigures(u: OpenAIUsage)
    requires NonNegativeOpenAI(u)
    ensures 0 <= DetailsOf(u).cached && 0 <= DetailsOf(u).cacheWrite
    ensures
      var f, d := FromOpenAI(u), DetailsOf(u);
      && InputTokens(f.counts) == (if PlainOpenAI(u) < 0 then 0 else PlainOpenAI(u)) + d.cached + d.cacheWrite
      && (f.degraded <==> PlainOpenAI(u) < 0 || ReasoningOf(u) > OutputTotal(u))
      && Count(f.counts, Output) == OutputTotal(u) && Count(f.counts, Reasoning) == ReasoningOf(u)
  {
    hide Wrap, Clamped, PlainOpenAI, DetailsOf, PromptTotal, OutputTotal, ReasoningOf;
    ClampedUnchanged(RawOpenAI(u));
  }

  lemma PlainIs(u: OpenAIUsage)
    requires NonNegativeOpenAI(u)
    ensures
      var x := PromptTotal(u) - DetailsOf(u).cached - DetailsOf(u).cacheWrite;
      && PlainOpenAI(u) == (if x < -MAX_INT64 - 1 then x + 0x1_0000_0000_0000_0000 else x)
      && MAX_INT64 == 0x7fff_ffff_ffff_ffff && -2 * MAX_INT64 <= x <= MAX_INT64
      && forall a, b :: Max(a, b) == if a < b then b else a
  {
    hide Wrap, DetailsOf, PromptTotal;
    var x := PromptTotal(u) - DetailsOf(u).cached - DetailsOf(u).cacheWrite;
    WrapAdd(PromptTotal(u) - DetailsOf(u).cached, -DetailsOf(u).cacheWrite);
    WrapOnce(x);
  }

  /** When it wraps, a request is billed for more input than it had, and the result
      does not say that it is degraded. */
  lemma OpenAIWraps() returns (u: OpenAIUsage)
    ensures NonNegativeOpenAI(u) && !FromOpenAI(u).degraded
    ensures PromptTotal(u) == 1 && Count(FromOpenAI(u).counts, Input) == 3
  {
    hide Wrap, Clamped;
    u := OpenAIUsage(1, 0, 0, 0, Some(PromptDetails(MAX_INT64, MAX_INT64)), None, None, None);
    WrapOnce(1 - MAX_INT64 - MAX_INT64);
    ClampedUnchanged(RawOpenAI(u));
    assert RawOpenAI(u).counts[Input] == 3;
  }

  predicate NonNegativeAnthropic(u: AnthropicUsage) {
    && 0 <= u.input && 0 <= u.output && 0 <= u.cacheRead && 0 <= u.cacheCreation
    && (u.split.Some? ==> 0 <= u.split.value.ephemeral5m && 0 <= u.split.value.ephemeral1h)
  }

  function ExactSplit(u: AnthropicUsage): int {
    if u.split.None? then 0 else u.split.value.ephemeral5m + u.split.value.ephemeral1h
  }

  /** Degraded or not, the parts add up to input plus cache reads plus the flat
      creation total, or the split where the flat total is zero. So they add up to
      input plus reads plus the flat total exactly when that total is not zero or
      there is nothing in the split. */
  lemma AnthropicParts(u: AnthropicUsage)
    requires NonNegativeAnthropic(u)
    ensures
      var f := FromAnthropic(u);
      && InputTokens(f.counts)
           == u.input + u.cacheRead + (if u.cacheCreation != 0 then u.cacheCreation else ExactSplit(u))
      && (InputTokens(f.counts) == u.input + u.cacheRead + u.cacheCreation
          <==> u.cacheCreation != 0 || ExactSplit(u) == 0)
      && (f.degraded <==> u.cacheCreation != 0 && (u.split.None? || ExactSplit(u) != u.cacheCreation))
      && Count(f.counts, Output) == u.output
  {
    hide Wrap, Clamped;
    WrapOnce(ExactSplit(u));
    ClampedUnchanged(RawAnthropic(u));
  }

  predicate NonNegativeGoogle(u: GoogleUsage) {
    0 <= u.prompt && 0 <= u.candidates && 0 <= u.cached && 0 <= u.thoughts
  }

  /** Cached tokens are taken out of the prompt and thoughts are added to the
      output. A sum too large for 64 bits is negative, so it is zeroed and says so. */
  lemma GoogleParts(u: GoogleUsage)
    requires NonNegativeGoogle(u)
    ensures
      var f := FromGoogle(u);
      && InputTokens(f.counts) == Max(u.prompt, u.cached)
      && (f.degraded <==> u.cached > u.prompt || u.candidates + u.thoughts > MAX_INT64)
      && Count(f.counts, Output) == (if u.candidates + u.thoughts > MAX_INT64 then 0 else u.candidates + u.thoughts)
      && (!f.degraded ==> Count(f.counts, Reasoning) <= Count(f.counts, Output) && InputTokens(f.counts) == u.prompt)
  {
    hide Wrap;
    WrapOnce(u.candidates + u.thoughts);
    if u.candidates + u.thoughts <= MAX_INT64 {
      ClampedUnchanged(RawGoogle(u));
    } else {
      assert Output in Negative(RawGoogle(u).counts);
    }
  }

  // ----- kind by kind ------------------------------------------------------

  /** Clamping keeps every count but those below zero, which become zero and are each
      an error. */
  lemma ClampedMeans(f: Figures)
    ensures Clamped(f).counts.Keys == f.counts.Keys
    ensures forall k :: k in f.counts ==> Clamped(f).counts[k] == Max(0, f.counts[k])
    ensures Clamped(f).parseErrors == f.parseErrors + |set k | k in f.counts && f.counts[k] < 0|
    ensures Clamped(f).degraded <==> f.degraded || exists k :: k in f.counts && f.counts[k] < 0
  {
    if k :| k in f.counts && f.counts[k] < 0 {
      assert k in Negative(f.counts);
    }
  }

  /** For non-negative fields each kind has the count that the provider reports for it,
      the first of the two names that is not zero. */
  lemma OpenAIKinds(u: OpenAIUsage)
    requires NonNegativeOpenAI(u)
    ensures
      var c := FromOpenAI(u).counts;
      var prompt := if u.promptTokens != 0 then u.promptTokens else u.inputTokens;
      var d := if u.promptDetails.Some? then u.promptDetails
               else if u.inputDetails.Some? then u.inputDetails else Some(PromptDetails(0, 0));
      var plain := prompt - d.value.cached - d.value.cacheWrite;
      && (-MAX_INT64 - 1 <= plain ==> Count(c, Input) == Max(0, plain))
      && Count(c, CachedRead) == d.value.cached && Count(c, CacheWrite5m) == d.value.cacheWrite
      && Count(c, CacheWrite1h) == 0
      && Count(c, Output) == (if u.completionTokens != 0 then u.completionTokens else u.outputTokens)
      && Count(c, Reasoning)
           == (if u.completionReasoning.Some? then u.completionReasoning.value
               else if u.outputReasoning.Some? then u.outputReasoning.value else 0)
  {
    hide Wrap, Clamped, PlainOpenAI;
    ClampedUnchanged(RawOpenAI(u));
    PlainIs(u);
  }

  /** Cache writes are split as the provider splits them, if the split adds up or is all
      there is; otherwise all of them are short-lived. */
  lemma AnthropicKinds(u: AnthropicUsage)
    requires NonNegativeAnthropic(u)
    ensures
      var c := FromAnthropic(u).counts;
      var sound := u.split.Some? &&
        (u.cacheCreation == 0 || u.split.value.ephemeral5m + u.split.value.ephemeral1h == u.cacheCreation);
      && Count(c, Input) == u.input && Count(c, Output) == u.output && Count(c, CachedRead) == u.cacheRead
      && Count(c, CacheWrite5m) == (if sound then u.split.value.ephemeral5m else u.cacheCreation)
      && Count(c, CacheWrite1h) == (if sound then u.split.value.ephemeral1h else 0)
  {
    hide Wrap, Clamped;
    WrapOnce(ExactSplit(u));
    ClampedUnchanged(RawAnthropic(u));
  }

  lemma GoogleKinds(u: GoogleUsage)
    requires NonNegativeGoogle(u)
    ensures
      var c := FromGoogle(u).counts;
      && Count(c, Input) == Max(0, u.prompt - u.cached) && Count(c, CachedRead) == u.cached
      && (u.candidates + u.thoughts <= MAX_INT64 ==> Count(c, Output) == u.candidates + u.thoughts)
      && Count(c, Reasoning) == u.thoughts
      && Count(c, CacheWrite5m) == Count(c, CacheWrite1h) == 0
  {
    hide Wrap;
  }
}
