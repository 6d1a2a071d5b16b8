/** What replaying an OpenAI chunk stream yields, which calls its emission loop keeps, and exactly
    when that is what the same response gives in one piece. */
module OpenAIReassembly {
  import opened Sequences
  import opened Sse
  import opened Llm
  import opened OpenAI

  // ---------- what a chunk sequence delivers, whatever its interleaving ----------

  function ChoiceText(cs: seq<ChoiceDelta>): string {
    if cs == [] then "" else ChoiceText(cs[..|cs| - 1]) + cs[|cs| - 1].content
  }

  function ChoiceTools(cs: seq<ChoiceDelta>): seq<ToolDelta> {
    if cs == [] then [] else ChoiceTools(cs[..|cs| - 1]) + cs[|cs| - 1].toolCalls
  }

  function AllText(chunks: seq<Chunk>): string {
    if chunks == [] then "" else AllText(chunks[..|chunks| - 1]) + ChoiceText(chunks[|chunks| - 1].choices)
  }

  function AllTools(chunks: seq<Chunk>): seq<ToolDelta> {
    if chunks == [] then [] else AllTools(chunks[..|chunks| - 1]) + ChoiceTools(chunks[|chunks| - 1].choices)
  }

  function FirstModel(chunks: seq<Chunk>): string {
    if chunks == [] then ""
    else
      var m := FirstModel(chunks[..|chunks| - 1]);
      if m == "" then chunks[|chunks| - 1].model else m
  }

  /** The wire's last usage, None when no chunk has any. */
  function LastUsage(chunks: seq<Chunk>): Option<WireUsage> {
    if chunks == [] then None
    else
      var u := chunks[|chunks| - 1].usage;
      if u.Some? then u else LastUsage(chunks[..|chunks| - 1])
  }

  /** Prompt and completion tokens, in that order; no usage counts as none of either. */
  function Counts(usage: Option<WireUsage>): (int, int) {
    match usage
    case None => (0, 0)
    case Some(u) => (u.promptTokens, u.completionTokens)
  }

  function NameOf(ts: seq<ToolDelta>, i: int): string {
    if ts == [] then ""
    else NameOf(ts[..|ts| - 1], i) + (if ts[|ts| - 1].index == i then ts[|ts| - 1].name else "")
  }

  function ArgsOf(ts: seq<ToolDelta>, i: int): string {
    if ts == [] then ""
    else ArgsOf(ts[..|ts| - 1], i) + (if ts[|ts| - 1].index == i then ts[|ts| - 1].arguments else "")
  }

  function Indices(ts: seq<ToolDelta>): set<int> {
    set t | t in ts :: t.index
  }

  // ---------- the state reached depends on these only ----------

  lemma {:induction false} FragmentsAppend(m: map<int, Fragment>, a: seq<ToolDelta>, b: seq<ToolDelta>)
    ensures AddFragments(AddFragments(m, a), b) == AddFragments(m, a + b)
  {
    if b == [] {
      assert a + b == a;
    } else {
      assert (a + b)[..|a + b| - 1] == a + b[..|b| - 1];
      FragmentsAppend(m, a, b[..|b| - 1]);
    }
  }

  lemma {:induction false} ChoicesSummary(s: State, cs: seq<ChoiceDelta>)
    ensures AddChoices(s, cs)
         == s.(text := s.text + ChoiceText(cs), fragments := AddFragments(s.fragments, ChoiceTools(cs)))
  {
    if cs == [] {
      assert s.text + "" == s.text;
    } else {
      var front, c := cs[..|cs| - 1], cs[|cs| - 1];
      ChoicesSummary(s, front);
      FragmentsAppend(s.fragments, ChoiceTools(front), c.toolCalls);
      assert s.text + ChoiceText(front) + c.content == s.text + ChoiceText(cs);
    }
  }

  lemma {:induction false} RunSummary(chunks: seq<Chunk>)
    ensures var (prompted, completed) := Counts(LastUsage(chunks));
            Run(chunks) == State(FirstModel(chunks),
                                 TokenUsage(input := prompted, output := completed, cacheRead := 0, cacheWrite := 0),
                                 AllText(chunks), AddFragments(map[], AllTools(chunks)))
  {
    if chunks != [] {
      var front, c := chunks[..|chunks| - 1], chunks[|chunks| - 1];
      RunSummary(front);
      ChoicesSummary(AddHead(Run(front), c), c.choices);
      FragmentsAppend(map[], AllTools(front), ChoiceTools(c.choices));
    }
  }

  lemma IndicesSnoc(ts: seq<ToolDelta>, t: ToolDelta)
    ensures Indices(ts + [t]) == Indices(ts) + {t.index}
  {
    forall i ensures i in Indices(ts + [t]) <==> i in Indices(ts) + {t.index} {
      if i == t.index {
        assert t in ts + [t];
      } else if i in Indices(ts) {
        var u :| u in ts && u.index == i;
        assert u in ts + [t];
      }
    }
  }

  /** Fragments of one index are concatenated in arrival order and never mix with another's. */
  lemma {:induction false} GatheredByIndex(ts: seq<ToolDelta>)
    ensures AddFragments(map[], ts).Keys == Indices(ts)
    ensures forall i | i in Indices(ts) :: AddFragments(map[], ts)[i] == Fragment(NameOf(ts, i), ArgsOf(ts, i))
    ensures forall i | i !in Indices(ts) :: NameOf(ts, i) == "" && ArgsOf(ts, i) == ""
  {
    if ts != [] {
      var front, t := ts[..|ts| - 1], ts[|ts| - 1];
      assert ts == front + [t];
      GatheredByIndex(front);
      IndicesSnoc(front, t);
    }
  }

  /** So the interleaving of fragments across chunks and indices does not matter. */
  lemma Confluence(a: seq<Chunk>, b: seq<Chunk>)
    requires FirstModel(a) == FirstModel(b) && LastUsage(a) == LastUsage(b) && AllText(a) == AllText(b)
    requires Indices(AllTools(a)) == Indices(AllTools(b))
    requires forall i | i in Indices(AllTools(a)) ::
               NameOf(AllTools(a), i) == NameOf(AllTools(b), i) && ArgsOf(AllTools(a), i) == ArgsOf(AllTools(b), i)
    ensures Run(a) == Run(b)
  {
    RunSummary(a);
    RunSummary(b);
    GatheredByIndex(AllTools(a));
    GatheredByIndex(AllTools(b));
    assert Run(a).fragments == Run(b).fragments;
  }

  // ---------- the emission loop ----------

  /** The indices below i that carry a fragment, in increasing order. */
  function KeptBelow(m: map<int, Fragment>, i: nat): seq<int> {
    if i == 0 then [] else KeptBelow(m, i - 1) + (if i - 1 in m then [i - 1] else [])
  }

  function CallOf(f: Fragment): ToolCall {
    ToolCall(f.name, if f.args == "" then "{}" else f.args)
  }

  lemma {:induction false} KeptExactly(m: map<int, Fragment>, n: nat)
    ensures var kept := KeptBelow(m, n);
            && (forall j, k | 0 <= j < k < |kept| :: kept[j] < kept[k])
            && (forall i :: i in kept <==> 0 <= i < n && i in m)
            && |EmittedBelow(m, n)| == |kept|
            && (forall j | 0 <= j < |kept| :: kept[j] in m && EmittedBelow(m, n)[j] == CallOf(m[kept[j]]))
  {
    if n > 0 {
      KeptExactly(m, n - 1);
    }
  }

  /** The loop emits the fragments with an index in [0, number of fragments), in strictly increasing
      index order, and no others. */
  lemma EmissionOrder(s: State)
    ensures var n := |s.fragments|;
            var kept := KeptBelow(s.fragments, n);
            && (forall j, k | 0 <= j < k < |kept| :: kept[j] < kept[k])
            && (forall i :: i in kept <==> i in s.fragments && 0 <= i < n)
            && |Finish(s).tools| == |kept|
            && (forall j | 0 <= j < |kept| ::
                  kept[j] in s.fragments && Finish(s).tools[j] == CallOf(s.fragments[kept[j]]))
  {
    KeptExactly(s.fragments, |s.fragments|);
  }

  lemma RangeGrows(keys: set<int>, n: nat)
    ensures |keys * Range(n + 1)| == |keys * Range(n)| + (if n in keys then 1 else 0)
  {
    hide Range;
    var below := keys * Range(n);
    if n in keys {
      assert keys * Range(n + 1) == below + {n};
    } else {
      assert keys * Range(n + 1) == below;
    }
  }

  lemma {:induction false} KeptSize(m: map<int, Fragment>, n: nat)
    ensures |KeptBelow(m, n)| == |m.Keys * Range(n)|
  {
    hide Range;
    if n > 0 {
      KeptSize(m, n - 1);
      RangeGrows(m.Keys, n - 1);
    } else {
      assert m.Keys * Range(0) == {};
    }
  }

  /** No call is lost if and only if the indices are exactly 0 to n - 1 (a pigeonhole argument). */
  lemma EmissionCompleteIff(s: State)
    ensures |Finish(s).tools| == |s.fragments| <==> s.fragments.Keys == Range(|s.fragments|)
  {
    var m := s.fragments;
    var n := |m|;
    KeptExactly(m, n);
    KeptSize(m, n);
    assert |m.Keys| == n;
    assert m.Keys == Range(n) ==> m.Keys * Range(n) == m.Keys;
    if |Finish(s).tools| == n {
      SubsetSize(m.Keys * Range(n), m.Keys);
      SubsetSize(m.Keys, Range(n));
    }
  }

  // ---------- stream equals full ----------

  /** The text is the choice's content, and the fragments of position i are those of its i-th call. No
      fragments of arguments stand for "{}". */
  ghost predicate Delivers(text: string, ts: seq<ToolDelta>, c: Choice) {
    && text == c.content
    && Indices(ts) == Range(|c.toolCalls|)
    && (forall i | 0 <= i < |c.toolCalls| ::
          && NameOf(ts, i) == c.toolCalls[i].name
          && SameInput(ArgsOf(ts, i), c.toolCalls[i].arguments))
  }

  const NO_CHOICE := Choice("", [])

  lemma {:induction false} EmitInOrder(m: map<int, Fragment>, fs: seq<Function>)
    requires forall i | 0 <= i < |fs| :: i in m && CallOf(m[i]) == ToolCall(fs[i].name, OrNoInput(fs[i].arguments))
    ensures EmittedBelow(m, |fs|) == CallsOf(fs)
  {
    if fs != [] {
      EmitInOrder(m, fs[..|fs| - 1]);
    }
  }

  lemma EmitDelivered(text: string, ts: seq<ToolDelta>, c: Choice)
    requires Delivers(text, ts, c)
    ensures var m := AddFragments(map[], ts);
            EmittedBelow(m, |m|) == CallsOf(c.toolCalls)
  {
    hide AddFragments, NameOf, ArgsOf, EmittedBelow, CallsOf, Indices, Range;
    GatheredByIndex(ts);
    var m := AddFragments(map[], ts);
    assert |m| == |m.Keys| == |c.toolCalls|;
    EmitInOrder(m, c.toolCalls);
  }

  lemma OneChoice(cs: seq<Choice>)
    requires |cs| <= 1
    ensures var c := if cs == [] then NO_CHOICE else cs[0];
            && TextsOf(cs) == (if c.content != "" then [c.content] else [])
            && AllCallsOf(cs) == CallsOf(c.toolCalls)
  {
    if cs != [] {
      assert cs[..0] == [];
    }
  }

  /** A single-choice response and any chunk sequence that delivers it parse to the same texts and
      calls, and to the same result if and only if the first non-empty model and the last usage of
      the stream are the response's. */
  lemma StreamEqualsFull(chunks: seq<Chunk>, resp: Response)
    requires |resp.choices| <= 1
    requires Delivers(AllText(chunks), AllTools(chunks), if resp.choices == [] then NO_CHOICE else resp.choices[0])
    ensures Finish(Run(chunks)).text == FullResult(resp).text
    ensures Finish(Run(chunks)).tools == FullResult(resp).tools
    ensures Finish(Run(chunks)) == FullResult(resp) <==>
            && FirstModel(chunks) == resp.model
            && Counts(LastUsage(chunks)) == Counts(resp.usage)
  {
    hide Run, AllText, AllTools, AddFragments, NameOf, ArgsOf, EmittedBelow, CallsOf, FirstModel, LastUsage;
    hide Indices, Range;
    var c := if resp.choices == [] then NO_CHOICE else resp.choices[0];
    var ts := AllTools(chunks);
    RunSummary(chunks);
    EmitDelivered(AllText(chunks), ts, c);
    OneChoice(resp.choices);
  }
}
