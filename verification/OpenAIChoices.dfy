/** Responses with several choices. On the wire each delta names its choice; the parser does not read
    the name and merges all choices, so that its agreement with the full parser has a limit. */
module OpenAIChoices {
  import opened Sequences
  import opened Llm
  import opened OpenAI
  import opened OpenAIReassembly

  /** A delta with the choice it belongs to. */
  datatype Tagged = Tagged(choice: int, delta: ChoiceDelta)

  datatype TaggedChunk = TaggedChunk(model: string, choices: seq<Tagged>, usage: Option<WireUsage>)

  function Plain(ds: seq<Tagged>): seq<ChoiceDelta> {
    if ds == [] then [] else Plain(ds[..|ds| - 1]) + [ds[|ds| - 1].delta]
  }

  /** What the parser decodes. */
  function Untag(c: TaggedChunk): Chunk {
    Chunk(c.model, Plain(c.choices), c.usage)
  }

  function UntagAll(cs: seq<TaggedChunk>): seq<Chunk> {
    if cs == [] then [] else UntagAll(cs[..|cs| - 1]) + [Untag(cs[|cs| - 1])]
  }

  /** The deltas of the whole stream, in order. */
  function Deltas(cs: seq<TaggedChunk>): seq<Tagged> {
    if cs == [] then [] else Deltas(cs[..|cs| - 1]) + cs[|cs| - 1].choices
  }

  /** The deltas of choice c. */
  function Own(ds: seq<Tagged>, c: int): seq<ChoiceDelta> {
    if ds == [] then []
    else Own(ds[..|ds| - 1], c) + (if ds[|ds| - 1].choice == c then [ds[|ds| - 1].delta] else [])
  }

  /** Each choice's own deltas deliver it; the choices interleave freely. */
  ghost predicate CarriesEach(cs: seq<TaggedChunk>, choices: seq<Choice>) {
    var ds := Deltas(cs);
    && (forall k | 0 <= k < |ds| :: 0 <= ds[k].choice < |choices|)
    && (forall c | 0 <= c < |choices| :: Delivers(ChoiceText(Own(ds, c)), ChoiceTools(Own(ds, c)), choices[c]))
  }

  // ---------- the merged stream ----------

  lemma {:induction false} PlainAppend(a: seq<Tagged>, b: seq<Tagged>)
    ensures Plain(a + b) == Plain(a) + Plain(b)
  {
    if b == [] {
      assert a + b == a;
    } else {
      assert (a + b)[..|a + b| - 1] == a + b[..|b| - 1];
      PlainAppend(a, b[..|b| - 1]);
    }
  }

  lemma {:induction false} ChoicesAppend(a: seq<ChoiceDelta>, b: seq<ChoiceDelta>)
    ensures ChoiceText(a + b) == ChoiceText(a) + ChoiceText(b)
    ensures ChoiceTools(a + b) == ChoiceTools(a) + ChoiceTools(b)
  {
    if b == [] {
      assert a + b == a;
    } else {
      assert (a + b)[..|a + b| - 1] == a + b[..|b| - 1];
      ChoicesAppend(a, b[..|b| - 1]);
    }
  }

  lemma {:induction false} Merged(cs: seq<TaggedChunk>)
    ensures AllText(UntagAll(cs)) == ChoiceText(Plain(Deltas(cs)))
    ensures AllTools(UntagAll(cs)) == ChoiceTools(Plain(Deltas(cs)))
  {
    if cs != [] {
      var front, c := cs[..|cs| - 1], cs[|cs| - 1];
      Merged(front);
      assert (UntagAll(front) + [Untag(c)])[..|UntagAll(front)|] == UntagAll(front);
      PlainAppend(Deltas(front), c.choices);
      ChoicesAppend(Plain(Deltas(front)), Plain(c.choices));
    }
  }

  lemma OneDelta(front: seq<ChoiceDelta>, d: ChoiceDelta)
    ensures ChoiceText(front + [d]) == ChoiceText(front) + d.content
    ensures ChoiceTools(front + [d]) == ChoiceTools(front) + d.toolCalls
  {
    assert (front + [d])[..|front|] == front;
  }

  lemma {:induction false} NoneOutside(ds: seq<Tagged>, c: int)
    requires forall k | 0 <= k < |ds| :: ds[k].choice != c
    ensures Own(ds, c) == []
  {
    if ds != [] {
      NoneOutside(ds[..|ds| - 1], c);
    }
  }

  lemma OwnSnoc(ds: seq<Tagged>, d: Tagged, c: int)
    ensures Own(ds + [d], c) == if d.choice == c then Own(ds, c) + [d.delta] else Own(ds, c)
    ensures Plain(ds + [d]) == Plain(ds) + [d.delta]
  {
    assert (ds + [d])[..|ds|] == ds;
  }

  /** When one choice alone has text, the merged text is its text. */
  lemma {:induction false} OnlyText(ds: seq<Tagged>, c: int)
    requires forall b | b != c :: ChoiceText(Own(ds, b)) == ""
    ensures ChoiceText(Plain(ds)) == ChoiceText(Own(ds, c))
  {
    if ds != [] {
      hide ChoiceText, Own, Plain;
      var front, d := ds[..|ds| - 1], ds[|ds| - 1];
      assert ds == front + [d];
      forall b ensures d.choice == b ==> ChoiceText(Own(ds, b)) == ChoiceText(Own(front, b)) + d.delta.content
               ensures d.choice != b ==> ChoiceText(Own(ds, b)) == ChoiceText(Own(front, b)) {
        OwnSnoc(front, d, b);
        OneDelta(Own(front, b), d.delta);
      }
      forall b | b != c ensures ChoiceText(Own(front, b)) == "" {
        assert ChoiceText(Own(ds, b)) == "";
      }
      OnlyText(front, c);
      OwnSnoc(front, d, c);
      OneDelta(Plain(front), d.delta);
      if d.choice != c {
        assert ChoiceText(Own(ds, d.choice)) == "";
      }
    }
  }

  /** The same for tool calls. */
  lemma {:induction false} OnlyTools(ds: seq<Tagged>, c: int)
    requires forall b | b != c :: ChoiceTools(Own(ds, b)) == []
    ensures ChoiceTools(Plain(ds)) == ChoiceTools(Own(ds, c))
  {
    if ds != [] {
      hide ChoiceTools, Own, Plain;
      var front, d := ds[..|ds| - 1], ds[|ds| - 1];
      assert ds == front + [d];
      forall b ensures d.choice == b ==> ChoiceTools(Own(ds, b)) == ChoiceTools(Own(front, b)) + d.delta.toolCalls
               ensures d.choice != b ==> ChoiceTools(Own(ds, b)) == ChoiceTools(Own(front, b)) {
        OwnSnoc(front, d, b);
        OneDelta(Own(front, b), d.delta);
      }
      forall b | b != c ensures ChoiceTools(Own(front, b)) == [] {
        assert ChoiceTools(Own(ds, b)) == [];
      }
      OnlyTools(front, c);
      OwnSnoc(front, d, c);
      OneDelta(Plain(front), d.delta);
      if d.choice != c {
        assert ChoiceTools(Own(ds, d.choice)) == [];
      }
    }
  }

  /** Every fragment belongs to one of the choices. */
  lemma {:induction false} ToolBelongs(ds: seq<Tagged>, t: ToolDelta) returns (k: nat)
    requires t in ChoiceTools(Plain(ds))
    ensures k < |ds| && t in ChoiceTools(Own(ds, ds[k].choice))
  {
    var front, d := ds[..|ds| - 1], ds[|ds| - 1];
    assert ds == front + [d];
    OneDelta(Plain(front), d.delta);
    OwnSnoc(front, d, d.choice);
    if t in d.delta.toolCalls {
      k := |ds| - 1;
      OneDelta(Own(front, d.choice), d.delta);
    } else {
      k := ToolBelongs(front, t);
      OwnSnoc(front, d, ds[k].choice);
      OneDelta(Own(front, ds[k].choice), d.delta);
    }
  }

  // ---------- the full parser's side ----------

  function WithContent(cs: seq<Choice>): nat {
    if cs == [] then 0 else WithContent(cs[..|cs| - 1]) + (if cs[|cs| - 1].content != "" then 1 else 0)
  }

  function WithCalls(cs: seq<Choice>): nat {
    if cs == [] then 0 else WithCalls(cs[..|cs| - 1]) + (if cs[|cs| - 1].toolCalls != [] then 1 else 0)
  }

  function MostCalls(cs: seq<Choice>): nat {
    if cs == [] then 0
    else
      var front, n := MostCalls(cs[..|cs| - 1]), |cs[|cs| - 1].toolCalls|;
      if n > front then n else front
  }

  /** At most one choice has content: then all but the returned one have none. */
  lemma {:induction false} TextSummary(cs: seq<Choice>) returns (c: int)
    ensures |TextsOf(cs)| == WithContent(cs)
    ensures WithContent(cs) == 0 ==> forall b | 0 <= b < |cs| :: cs[b].content == ""
    ensures WithContent(cs) == 1 ==>
              0 <= c < |cs| && TextsOf(cs) == [cs[c].content] && cs[c].content != ""
              && forall b | 0 <= b < |cs| && b != c :: cs[b].content == ""
  {
    c := -1;
    if cs != [] {
      var front := cs[..|cs| - 1];
      c := TextSummary(front);
      if WithContent(front) == 0 {
        assert TextsOf(front) == [];
        c := |cs| - 1;
      }
    }
  }

  lemma {:induction false} CallsSize(fs: seq<Function>)
    ensures |CallsOf(fs)| == |fs|
  {
    if fs != [] {
      CallsSize(fs[..|fs| - 1]);
    }
  }

  lemma {:induction false} CallSizes(cs: seq<Choice>)
    ensures |AllCallsOf(cs)| >= MostCalls(cs)
    ensures |AllCallsOf(cs)| == MostCalls(cs) <==> WithCalls(cs) <= 1
    ensures MostCalls(cs) == 0 <==> WithCalls(cs) == 0
  {
    if cs != [] {
      hide CallsOf;
      CallSizes(cs[..|cs| - 1]);
      CallsSize(cs[|cs| - 1].toolCalls);
    }
  }

  lemma {:induction false} MostIsMost(cs: seq<Choice>)
    ensures forall b | 0 <= b < |cs| :: |cs[b].toolCalls| <= MostCalls(cs)
  {
    if cs != [] {
      MostIsMost(cs[..|cs| - 1]);
    }
  }

  /** At most one choice has calls: then all but the returned one have none. */
  lemma {:induction false} CallSummary(cs: seq<Choice>) returns (c: int)
    ensures WithCalls(cs) == 0 ==> AllCallsOf(cs) == [] && forall b | 0 <= b < |cs| :: cs[b].toolCalls == []
    ensures WithCalls(cs) == 1 ==>
              0 <= c < |cs| && AllCallsOf(cs) == CallsOf(cs[c].toolCalls)
              && forall b | 0 <= b < |cs| && b != c :: cs[b].toolCalls == []
  {
    c := -1;
    if cs != [] {
      hide CallsOf;
      var front, last := cs[..|cs| - 1], cs[|cs| - 1];
      c := CallSummary(front);
      if last.toolCalls == [] {
        CallsSize(last.toolCalls);
        assert AllCallsOf(front) + CallsOf(last.toolCalls) == AllCallsOf(front);
      } else if WithCalls(front) == 0 {
        assert [] + CallsOf(last.toolCalls) == CallsOf(last.toolCalls);
        c := |cs| - 1;
      }
    }
  }

  // ---------- exactly when the two agree ----------

  lemma NoFragments(ts: seq<ToolDelta>)
    ensures Indices(ts) == {} <==> ts == []
  {
    if ts != [] {
      assert ts[0].index in Indices(ts);
    }
  }

  lemma TextAgrees(cs: seq<TaggedChunk>, choices: seq<Choice>)
    requires CarriesEach(cs, choices) && WithContent(choices) <= 1
    ensures var text := AllText(UntagAll(cs));
            TextsOf(choices) == if text != "" then [text] else []
  {
    hide ChoiceText, ChoiceTools, Own, Plain, AllText, UntagAll, TextsOf, WithContent, NameOf, ArgsOf, Indices;
    var ds := Deltas(cs);
    var c := TextSummary(choices);
    if WithContent(choices) == 0 {
      c := -1;
      assert TextsOf(choices) == [];
    }
    forall b | b != c || WithContent(choices) == 0 ensures ChoiceText(Own(ds, b)) == "" {
      if 0 <= b < |choices| {
        assert Delivers(ChoiceText(Own(ds, b)), ChoiceTools(Own(ds, b)), choices[b]);
      } else {
        NoneOutside(ds, b);
        NothingDelivered();
      }
    }
    OnlyText(ds, c);
    Merged(cs);
    if WithContent(choices) == 1 {
      assert Delivers(ChoiceText(Own(ds, c)), ChoiceTools(Own(ds, c)), choices[c]);
    }
  }

  lemma NothingDelivered()
    ensures ChoiceText([]) == "" && ChoiceTools([]) == []
  {
  }

  lemma CallsAgree(cs: seq<TaggedChunk>, choices: seq<Choice>)
    requires CarriesEach(cs, choices) && WithCalls(choices) <= 1
    ensures var m := AddFragments(map[], AllTools(UntagAll(cs)));
            AllCallsOf(choices) == EmittedBelow(m, |m|)
  {
    hide ChoiceText, ChoiceTools, Own, Plain, AllTools, UntagAll, AllCallsOf, CallsOf, WithCalls, MostCalls, NameOf,
      ArgsOf, Indices, Range;
    var ds := Deltas(cs);
    var c := CallSummary(choices);
    if WithCalls(choices) == 0 {
      c := -1;
      assert AllCallsOf(choices) == [];
    }
    forall b | b != c || WithCalls(choices) == 0 ensures ChoiceTools(Own(ds, b)) == [] {
      if 0 <= b < |choices| {
        assert Delivers(ChoiceText(Own(ds, b)), ChoiceTools(Own(ds, b)), choices[b]);
        assert Range(0) == {};
        NoFragments(ChoiceTools(Own(ds, b)));
      } else {
        NoneOutside(ds, b);
        NothingDelivered();
      }
    }
    OnlyTools(ds, c);
    Merged(cs);
    if WithCalls(choices) == 1 {
      EmitDelivered(ChoiceText(Own(ds, c)), ChoiceTools(Own(ds, c)), choices[c]);
    }
  }

  /** The stream never has more calls than the choice with the most. */
  lemma CallsBounded(cs: seq<TaggedChunk>, choices: seq<Choice>)
    requires CarriesEach(cs, choices)
    ensures |Finish(Run(UntagAll(cs))).tools| <= MostCalls(choices)
  {
    hide Deltas, ChoiceText, ChoiceTools, Own, Plain, AllTools, UntagAll, MostCalls, WithCalls, NameOf, ArgsOf, Run,
      AddFragments, Range;
    var ds, ts := Deltas(cs), AllTools(UntagAll(cs));
    MostIsMost(choices);
    RunSummary(UntagAll(cs));
    GatheredByIndex(ts);
    Merged(cs);
    forall i | i in Indices(ts) ensures i in Range(MostCalls(choices)) {
      var t :| t in ts && t.index == i;
      var k := ToolBelongs(ds, t);
      var c := ds[k].choice;
      assert Delivers(ChoiceText(Own(ds, c)), ChoiceTools(Own(ds, c)), choices[c]);
      assert i in Indices(ChoiceTools(Own(ds, c)));
    }
    SubsetSize(Indices(ts), Range(MostCalls(choices)));
    EmissionBounded(Run(UntagAll(cs)));
  }

  lemma EmissionBounded(s: State)
    ensures |Finish(s).tools| <= |s.fragments|
  {
    KeptExactly(s.fragments, |s.fragments|);
    KeptSize(s.fragments, |s.fragments|);
    SubsetSize(s.fragments.Keys * Range(|s.fragments|), s.fragments.Keys);
  }

  /** For a response with any number of choices, delivered in any interleaving of their deltas: the
      two parsers agree on the texts if and only if at most one choice has content, on the calls if
      and only if at most one has calls, and on everything if and only if moreover the first
      non-empty model and the last usage are the response's. */
  lemma AgreeIff(cs: seq<TaggedChunk>, resp: Response)
    requires CarriesEach(cs, resp.choices)
    ensures Finish(Run(UntagAll(cs))).text == FullResult(resp).text <==> WithContent(resp.choices) <= 1
    ensures Finish(Run(UntagAll(cs))).tools == FullResult(resp).tools <==> WithCalls(resp.choices) <= 1
    ensures Finish(Run(UntagAll(cs))) == FullResult(resp) <==>
            && WithContent(resp.choices) <= 1 && WithCalls(resp.choices) <= 1
            && FirstModel(UntagAll(cs)) == resp.model
            && Counts(LastUsage(UntagAll(cs))) == Counts(resp.usage)
  {
    hide CarriesEach, Run, UntagAll, AllText, AllTools, TextsOf, AllCallsOf, WithContent, WithCalls, MostCalls,
      AddFragments, EmittedBelow, FirstModel, LastUsage;
    RunSummary(UntagAll(cs));
    var _ := TextSummary(resp.choices);
    CallSizes(resp.choices);
    CallsBounded(cs, resp.choices);
    if WithContent(resp.choices) <= 1 {
      TextAgrees(cs, resp.choices);
    }
    if WithCalls(resp.choices) <= 1 {
      CallsAgree(cs, resp.choices);
    }
  }
}
