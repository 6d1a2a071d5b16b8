/** What the two OpenAI parsers yield, said in the wire's own names. */
module OpenAIMeaning {
  import opened Sequences
  import opened Llm
  import opened OpenAI
  import opened OpenAIReassembly

  // ---------- a response in one piece ----------

  function SaidOf(c: Choice): Option<string> {
    if c.content != "" then Some(c.content) else None
  }

  function CalledOf(f: Function): ToolCall {
    ToolCall(f.name, if f.arguments == "" then "{}" else f.arguments)
  }

  /** The calls of all choices, one choice after another. */
  function CalledBy(cs: seq<Choice>): seq<ToolCall> {
    if cs == [] then []
    else
      var fs := cs[|cs| - 1].toolCalls;
      CalledBy(cs[..|cs| - 1]) + seq(|fs|, j requires 0 <= j < |fs| => CalledOf(fs[j]))
  }

  /** The counts that the response reports; OpenAI has no cache counts. */
  ghost predicate Reports(usage: Option<WireUsage>, counts: TokenUsage) {
    (counts.input, counts.output) == Counts(usage) && counts.cacheRead == 0 && counts.cacheWrite == 0
  }

  lemma {:induction false} CallsYield(fs: seq<Function>)
    ensures CallsOf(fs) == seq(|fs|, j requires 0 <= j < |fs| => CalledOf(fs[j]))
  {
    if fs != [] {
      CallsYield(fs[..|fs| - 1]);
    }
  }

  lemma {:induction false} ChoicesYield(cs: seq<Choice>)
    ensures TextsOf(cs) == FilterMap(SaidOf, cs)
    ensures AllCallsOf(cs) == CalledBy(cs)
  {
    if cs != [] {
      hide CallsOf;
      ChoicesYield(cs[..|cs| - 1]);
      CallsYield(cs[|cs| - 1].toolCalls);
    }
  }

  /** The non-empty contents of the choices and all their calls, in order; no arguments are stored as
      "{}"; and the response's model and counts. */
  lemma FullYields(resp: Response)
    ensures var r := FullResult(resp);
            && r.text == FilterMap(SaidOf, resp.choices)
            && r.tools == CalledBy(resp.choices)
            && r.model == resp.model && Reports(resp.usage, r.usage)
  {
    ChoicesYield(resp.choices);
  }

  // ---------- a stream ----------

  /** All content is one text. The indices that have fragments and are below their number are kept, in
      increasing order, each with its names and its arguments joined. */
  ghost predicate StreamTurns(chunks: seq<Chunk>, text: seq<string>, tools: seq<ToolCall>, kept: seq<int>) {
    var ts := AllTools(chunks);
    && text == (if AllText(chunks) == "" then [] else [AllText(chunks)])
    && Increasing(kept)
    && (forall i :: i in kept <==> i in Indices(ts) && 0 <= i < |Indices(ts)|)
    && |tools| == |kept|
    && forall j | 0 <= j < |kept| ::
         tools[j] == ToolCall(NameOf(ts, kept[j]),
                              if ArgsOf(ts, kept[j]) == "" then "{}" else ArgsOf(ts, kept[j]))
  }

  /** So the stream turns out, with the first non-empty model and the last usage. */
  lemma StreamYields(chunks: seq<Chunk>) returns (kept: seq<int>)
    ensures var r := Finish(Run(chunks));
            && StreamTurns(chunks, r.text, r.tools, kept)
            && r.model == FirstModel(chunks) && Reports(LastUsage(chunks), r.usage)
  {
    hide Run, AllText, AllTools, FirstModel, LastUsage, NameOf, ArgsOf, Indices, EmittedBelow, AddFragments;
    var s := Run(chunks);
    RunSummary(chunks);
    GatheredByIndex(AllTools(chunks));
    EmissionOrder(s);
    assert |s.fragments| == |s.fragments.Keys|;
    kept := KeptBelow(s.fragments, |s.fragments|);
  }
}
