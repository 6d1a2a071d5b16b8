/** The stream parser appends a block when it stops. What that makes of a message whose blocks do not
    stop in content order, and exactly when it still agrees with the full parser. */
module AnthropicStopOrder {
  import opened Sequences
  import opened Llm
  import opened Anthropic
  import opened AnthropicReassembly

  function Reordered(content: seq<Content>, order: seq<int>): seq<Content>
    requires forall k | 0 <= k < |order| :: 0 <= order[k] < |content|
  {
    seq(|order|, k requires 0 <= k < |order| => content[order[k]])
  }

  /** The events on index i carry content block i, and each index is stopped once. */
  ghost predicate CarriesByIndex(evs: seq<Event>, content: seq<Content>) {
    && |Stops(evs)| == |content|
    && (forall j, k | 0 <= j < k < |content| :: Stops(evs)[j] != Stops(evs)[k])
    && (forall k | 0 <= k < |Stops(evs)| :: 0 <= Stops(evs)[k] < |content|)
    && (forall i | 0 <= i < |content| :: CarriesBlock(OnIndex(evs, i), content[i]))
  }

  /** Such a stream parses to the message whose content is put in the order of the stops. */
  lemma StopOrderIsContentOrder(evs: seq<Event>, msg: Message)
    requires CarriesByIndex(evs, msg.content)
    ensures var reordered := msg.(content := Reordered(msg.content, Stops(evs)));
            && Run(evs).result.thinking == FullResult(reordered).thinking
            && Run(evs).result.text == FullResult(reordered).text
            && Run(evs).result.tools == FullResult(reordered).tools
            && (Run(evs).result == FullResult(reordered) <==> CarriesMeta(Meta(evs), msg))
  {
    StreamEqualsFull(evs, msg.(content := Reordered(msg.content, Stops(evs))));
  }

  // ---------- when the order is not seen ----------

  /** What a block adds to the list of its kind: nothing when a thinking or text block is empty. */
  function Shown(c: Content, kind: string): Option<ToolCall> {
    if c.kind != kind then None
    else if kind == "thinking" then (if c.thinking == "" then None else Some(ToolCall("", c.thinking)))
    else if kind == "text" then (if c.text == "" then None else Some(ToolCall("", c.text)))
    else if kind == "tool_use" then Some(ToolCall(c.name, if c.input == "" then "{}" else c.input))
    else None
  }

  /** The payloads of one kind, in order. */
  function AllShown(cs: seq<Content>, kind: string): seq<ToolCall> {
    if cs == [] then []
    else
      var front := AllShown(cs[..|cs| - 1], kind);
      match Shown(cs[|cs| - 1], kind)
      case Some(p) => front + [p]
      case None => front
  }

  ghost predicate SameShown(a: seq<Content>, b: seq<Content>) {
    && AllShown(a, "thinking") == AllShown(b, "thinking")
    && AllShown(a, "text") == AllShown(b, "text")
    && AllShown(a, "tool_use") == AllShown(b, "tool_use")
  }

  function Unnamed(texts: seq<string>): seq<ToolCall> {
    seq(|texts|, i requires 0 <= i < |texts| => ToolCall("", texts[i]))
  }

  lemma {:induction false} ListsAreShown(r: Result, cs: seq<Content>)
    requires r.thinking == [] && r.text == [] && r.tools == []
    ensures Unnamed(AddContents(r, cs).thinking) == AllShown(cs, "thinking")
    ensures Unnamed(AddContents(r, cs).text) == AllShown(cs, "text")
    ensures AddContents(r, cs).tools == AllShown(cs, "tool_use")
    ensures AddContents(r, cs).model == r.model && AddContents(r, cs).usage == r.usage
  {
    if cs != [] {
      ListsAreShown(r, cs[..|cs| - 1]);
    }
  }

  lemma UnnamedInjective(a: seq<string>, b: seq<string>)
    requires Unnamed(a) == Unnamed(b)
    ensures a == b
  {
    assert |a| == |Unnamed(a)| == |b|;
    forall i | 0 <= i < |a| ensures a[i] == b[i] {
      assert Unnamed(a)[i] == Unnamed(b)[i];
    }
  }

  lemma SameListsIff(r: Result, a: seq<Content>, b: seq<Content>)
    requires r.thinking == [] && r.text == [] && r.tools == []
    ensures AddContents(r, a) == AddContents(r, b) <==> SameShown(a, b)
  {
    hide AddContents, AllShown, Unnamed;
    ListsAreShown(r, a);
    ListsAreShown(r, b);
    if SameShown(a, b) {
      UnnamedInjective(AddContents(r, a).thinking, AddContents(r, b).thinking);
      UnnamedInjective(AddContents(r, a).text, AddContents(r, b).text);
    }
  }

  /** The two parsers agree if and only if the metadata does and, for each of thinking, text and
      tool use separately, the payloads in stop order are those in content order. */
  lemma StopOrderAgreesIff(evs: seq<Event>, msg: Message)
    requires CarriesByIndex(evs, msg.content)
    ensures Run(evs).result == FullResult(msg) <==>
            CarriesMeta(Meta(evs), msg) && SameShown(Reordered(msg.content, Stops(evs)), msg.content)
  {
    hide CarriesByIndex, Run, Stops, Meta, SameShown, AddContents, CarriesMeta;
    var order := Stops(evs);
    assert forall k | 0 <= k < |order| :: 0 <= order[k] < |msg.content| by { InRange(evs, msg.content); }
    StopOrderIsContentOrder(evs, msg);
    var base := HeadResult(msg);
    SameListsIff(base, Reordered(msg.content, order), msg.content);
    ListsAreShown(base, Reordered(msg.content, order));
    ListsAreShown(base, msg.content);
  }

  lemma InRange(evs: seq<Event>, content: seq<Content>)
    requires CarriesByIndex(evs, content)
    ensures forall k | 0 <= k < |Stops(evs)| :: 0 <= Stops(evs)[k] < |content|
  {
  }

  // ---------- order within each kind is enough ----------

  /** The positions in `order` whose block has the kind. */
  function OfKind(content: seq<Content>, order: seq<int>, kind: string): seq<int>
    requires forall k | 0 <= k < |order| :: 0 <= order[k] < |content|
  {
    if order == [] then []
    else
      var i := order[|order| - 1];
      OfKind(content, order[..|order| - 1], kind) + (if content[i].kind == kind then [i] else [])
  }

  /** Blocks of one kind stop in content order; blocks of different kinds in any order. */
  ghost predicate OrderedWithinKinds(content: seq<Content>, order: seq<int>)
    requires forall k | 0 <= k < |order| :: 0 <= order[k] < |content|
  {
    forall j, k | 0 <= j < k < |order| && content[order[j]].kind == content[order[k]].kind ::
      order[j] < order[k]
  }

  lemma ElementsSnoc(s: seq<int>, x: int)
    ensures Elements(s + [x]) == Elements(s) + {x}
  {
  }

  lemma {:induction false} OfKindElements(content: seq<Content>, order: seq<int>, kind: string)
    requires forall k | 0 <= k < |order| :: 0 <= order[k] < |content|
    ensures Elements(OfKind(content, order, kind))
         == set i | i in Elements(order) && 0 <= i < |content| && content[i].kind == kind
  {
    if order != [] {
      hide Elements;
      var front, i := order[..|order| - 1], order[|order| - 1];
      OfKindElements(content, front, kind);
      var kept := OfKind(content, front, kind);
      assert order == front + [i] && kept + [] == kept;
      ElementsSnoc(front, i);
      ElementsSnoc(kept, i);
    } else {
      NoElements(order);
    }
  }

  lemma OfKindInRange(content: seq<Content>, order: seq<int>, kind: string)
    requires forall k | 0 <= k < |order| :: 0 <= order[k] < |content|
    ensures forall k | 0 <= k < |OfKind(content, order, kind)| ::
              var i := OfKind(content, order, kind)[k];
              i in Elements(order) && 0 <= i < |content| && content[i].kind == kind
  {
    OfKindElements(content, order, kind);
    var kept := OfKind(content, order, kind);
    forall k | 0 <= k < |kept| ensures kept[k] in Elements(kept) {
    }
  }

  /** What the last of ordered positions is above. */
  lemma OrderedFront(content: seq<Content>, order: seq<int>, j: int)
    requires order != [] && forall k | 0 <= k < |order| :: 0 <= order[k] < |content|
    requires OrderedWithinKinds(content, order)
    ensures OrderedWithinKinds(content, order[..|order| - 1])
    ensures var i := order[|order| - 1];
            (&& j in Elements(order[..|order| - 1]) && 0 <= j < |content|
             && content[j].kind == content[i].kind) ==> j < i
  {
  }

  lemma LastIsAbove(content: seq<Content>, order: seq<int>)
    requires order != [] && forall k | 0 <= k < |order| :: 0 <= order[k] < |content|
    requires OrderedWithinKinds(content, order)
    ensures var i := order[|order| - 1];
            var kept := OfKind(content, order[..|order| - 1], content[i].kind);
            forall k | 0 <= k < |kept| :: kept[k] < i
  {
    hide OfKind, OrderedWithinKinds, Elements;
    var front, i := order[..|order| - 1], order[|order| - 1];
    var kept := OfKind(content, front, content[i].kind);
    OfKindInRange(content, front, content[i].kind);
    forall k | 0 <= k < |kept| ensures kept[k] < i {
      OrderedFront(content, order, kept[k]);
    }
  }

  lemma {:induction false} OfKindIncreasing(content: seq<Content>, order: seq<int>, kind: string)
    requires forall k | 0 <= k < |order| :: 0 <= order[k] < |content|
    requires OrderedWithinKinds(content, order)
    ensures Increasing(OfKind(content, order, kind))
  {
    if order != [] {
      hide OfKind, OrderedWithinKinds, Elements, Increasing;
      var front, i := order[..|order| - 1], order[|order| - 1];
      OrderedFront(content, order, i);
      OfKindIncreasing(content, front, kind);
      OfKindSnoc(content, front, i, kind);
      assert order == front + [i];
      if content[i].kind == kind {
        LastIsAbove(content, order);
        IncreasingSnoc(OfKind(content, front, kind), i);
      }
    } else {
      assert OfKind(content, order, kind) == [];
    }
  }

  lemma OfKindSnoc(content: seq<Content>, order: seq<int>, i: int, kind: string)
    requires 0 <= i < |content| && forall k | 0 <= k < |order| :: 0 <= order[k] < |content|
    ensures OfKind(content, order + [i], kind)
         == if content[i].kind == kind then OfKind(content, order, kind) + [i]
            else OfKind(content, order, kind)
  {
    assert (order + [i])[..|order|] == order;
  }

  lemma ShownSnoc(content: seq<Content>, order: seq<int>, i: int, kind: string)
    requires 0 <= i < |content| && forall k | 0 <= k < |order| :: 0 <= order[k] < |content|
    ensures AllShown(Reordered(content, order + [i]), kind)
         == match Shown(content[i], kind)
            case Some(p) => AllShown(Reordered(content, order), kind) + [p]
            case None => AllShown(Reordered(content, order), kind)
  {
    assert Reordered(content, order + [i])[..|order|] == Reordered(content, order);
  }

  lemma {:induction false} ShownOfKind(content: seq<Content>, order: seq<int>, kind: string)
    requires forall k | 0 <= k < |order| :: 0 <= order[k] < |content|
    requires forall k | 0 <= k < |OfKind(content, order, kind)| :: 0 <= OfKind(content, order, kind)[k] < |content|
    ensures AllShown(Reordered(content, OfKind(content, order, kind)), kind)
         == AllShown(Reordered(content, order), kind)
  {
    if order != [] {
      hide AllShown, Reordered, OfKind;
      var front, i := order[..|order| - 1], order[|order| - 1];
      var kept := OfKind(content, front, kind);
      OfKindInRange(content, front, kind);
      ShownOfKind(content, front, kind);
      assert order == front + [i];
      OfKindSnoc(content, front, i, kind);
      ShownSnoc(content, front, i, kind);
      if content[i].kind == kind {
        ShownSnoc(content, kept, i, kind);
      }
    } else {
      assert OfKind(content, order, kind) == order;
    }
  }

  function InOrder(n: nat): seq<int> {
    seq(n, k => k)
  }

  /** The stops, being distinct and as many as the blocks, reach every block (a pigeonhole argument). */
  lemma StopsReachAll(order: seq<int>, n: nat)
    requires |order| == n && forall k | 0 <= k < n :: 0 <= order[k] < n
    requires forall j, k | 0 <= j < k < n :: order[j] != order[k]
    ensures Elements(order) == Range(n)
  {
    DistinctSize(order);
    SubsetSize(Elements(order), Range(n));
  }

  /** So the stream agrees with the full parse already when the blocks of each kind stop in content
      order, however the kinds overtake each other. */
  lemma OrderWithinKindsSuffices(evs: seq<Event>, msg: Message)
    requires CarriesByIndex(evs, msg.content) && CarriesMeta(Meta(evs), msg)
    requires OrderedWithinKinds(msg.content, Stops(evs))
    ensures Run(evs).result == FullResult(msg)
  {
    hide AllShown, Run, FullResult, CarriesMeta, Meta, Stops, OnIndex, CarriesBlock, OrderedWithinKinds;
    StopOrderAgreesIff(evs, msg);
    SameKindSameShown(msg.content, Stops(evs), "thinking");
    SameKindSameShown(msg.content, Stops(evs), "text");
    SameKindSameShown(msg.content, Stops(evs), "tool_use");
  }

  lemma SameOfKind(content: seq<Content>, order: seq<int>, kind: string)
    requires |order| == |content| && forall k | 0 <= k < |order| :: 0 <= order[k] < |content|
    requires forall j, k | 0 <= j < k < |order| :: order[j] != order[k]
    requires OrderedWithinKinds(content, order)
    ensures OfKind(content, order, kind) == OfKind(content, InOrder(|content|), kind)
  {
    hide OfKind, Elements;
    var straight := InOrder(|content|);
    StopsReachAll(order, |content|);
    StopsReachAll(straight, |content|);
    OfKindElements(content, order, kind);
    OfKindElements(content, straight, kind);
    OfKindIncreasing(content, order, kind);
    OfKindIncreasing(content, straight, kind);
    IncreasingUnique(OfKind(content, order, kind), OfKind(content, straight, kind));
  }

  lemma SameKindSameShown(content: seq<Content>, order: seq<int>, kind: string)
    requires |order| == |content| && forall k | 0 <= k < |order| :: 0 <= order[k] < |content|
    requires forall j, k | 0 <= j < k < |order| :: order[j] != order[k]
    requires OrderedWithinKinds(content, order)
    ensures AllShown(Reordered(content, order), kind) == AllShown(content, kind)
  {
    hide AllShown, OfKind, OrderedWithinKinds, Elements;
    var straight := InOrder(|content|);
    assert Reordered(content, straight) == content;
    SameOfKind(content, order, kind);
    OfKindInRange(content, order, kind);
    ShownOfKind(content, order, kind);
    ShownOfKind(content, straight, kind);
  }

  // ---------- an input on which the two parsers differ ----------

  function TextEvent(kind: string, index: int, text: string): Event {
    Event(kind, None, index, Some(BlockHead("text", "")), Some(Delta("text_delta", "", text, "")), None)
  }

  function Opening(i: int): Event { TextEvent("content_block_start", i, "") }
  function Extending(i: int, text: string): Event { TextEvent("content_block_delta", i, text) }
  function Closing(i: int): Event { TextEvent("content_block_stop", i, "") }

  /** Two text blocks; the second stops first. */
  const OVERTAKEN := [Opening(0), Opening(1), Extending(0, "a"), Extending(1, "b"), Closing(1), Closing(0)]

  const TWO_TEXTS := Message("", [Content("text", "", "a", "", ""), Content("text", "", "b", "", "")],
                             WireUsage(0, 0, 0, 0))

  lemma TextSteps(s: State, i: int, text: string)
    ensures Step(s, Opening(i)) == s.(blocks := s.blocks[i := Block("text", "", "")])
    ensures i in s.blocks ==>
              Step(s, Extending(i, text)) == s.(blocks := s.blocks[i := s.blocks[i].(buf := s.blocks[i].buf + text)])
    ensures i in s.blocks && s.blocks[i].kind == "text" && s.blocks[i].buf != "" ==>
              Step(s, Closing(i)) == State(s.blocks - {i}, s.result.(text := s.result.text + [s.blocks[i].buf]))
  {
  }

  lemma OvertakenState()
    ensures Run(OVERTAKEN[..4]) == State(map[0 := Block("text", "", "a"), 1 := Block("text", "", "b")], NO_RESULT)
  {
    hide Step, Run, Opening, Extending;
    assert OVERTAKEN[..1] == [] + [Opening(0)];
    assert OVERTAKEN[..2] == OVERTAKEN[..1] + [Opening(1)];
    assert OVERTAKEN[..3] == OVERTAKEN[..2] + [Extending(0, "a")];
    assert OVERTAKEN[..4] == OVERTAKEN[..3] + [Extending(1, "b")];
    RunSnoc([], Opening(0));
    RunSnoc(OVERTAKEN[..1], Opening(1));
    RunSnoc(OVERTAKEN[..2], Extending(0, "a"));
    RunSnoc(OVERTAKEN[..3], Extending(1, "b"));
    NothingRun();
    TextSteps(START, 0, "");
    TextSteps(Run(OVERTAKEN[..1]), 1, "");
    TextSteps(Run(OVERTAKEN[..2]), 0, "a");
    TextSteps(Run(OVERTAKEN[..3]), 1, "b");
    assert "" + "a" == "a" && "" + "b" == "b";
  }

  lemma NothingRun()
    ensures Run([]) == START
  {
  }

  /** The stream gives the texts in stop order, the full parse in content order. */
  lemma StopOrderIsVisible()
    ensures Stops(OVERTAKEN) == [1, 0]
    ensures Run(OVERTAKEN).result.text == ["b", "a"]
    ensures FullResult(TWO_TEXTS).text == ["a", "b"]
  {
    OvertakenState();
    OvertakenEnd();
    OvertakenStops();
    TwoTexts();
  }

  lemma OvertakenEnd()
    requires Run(OVERTAKEN[..4]) == State(map[0 := Block("text", "", "a"), 1 := Block("text", "", "b")], NO_RESULT)
    ensures Run(OVERTAKEN).result.text == ["b", "a"]
  {
    hide Step, Run, Closing;
    assert OVERTAKEN[..5] == OVERTAKEN[..4] + [Closing(1)];
    assert OVERTAKEN == OVERTAKEN[..5] + [Closing(0)];
    RunSnoc(OVERTAKEN[..4], Closing(1));
    RunSnoc(OVERTAKEN[..5], Closing(0));
    TextSteps(Run(OVERTAKEN[..4]), 1, "");
    TextSteps(Run(OVERTAKEN[..5]), 0, "");
    assert [] + ["b"] + ["a"] == ["b", "a"];
  }

  lemma StopsSnoc(evs: seq<Event>, ev: Event)
    ensures Stops(evs + [ev]) == Stops(evs) + (if IsStop(ev) then [ev.index] else [])
  {
    assert (evs + [ev])[..|evs|] == evs;
  }

  lemma OvertakenStops()
    ensures Stops(OVERTAKEN) == [1, 0]
  {
    hide Stops;
    assert Stops([]) == [] by { NoStops(); }
    forall n: nat | n < 6
      ensures Stops(OVERTAKEN[..n + 1]) == Stops(OVERTAKEN[..n]) + (if n >= 4 then [5 - n] else [])
    {
      assert OVERTAKEN[..n + 1] == OVERTAKEN[..n] + [OVERTAKEN[n]];
      StopsSnoc(OVERTAKEN[..n], OVERTAKEN[n]);
    }
    assert OVERTAKEN[..0] == [] && OVERTAKEN[..6] == OVERTAKEN;
    assert Stops(OVERTAKEN[..1]) == [] && Stops(OVERTAKEN[..2]) == [] && Stops(OVERTAKEN[..3]) == [];
    assert Stops(OVERTAKEN[..4]) == [] && Stops(OVERTAKEN[..5]) == [1];
  }

  lemma NoStops()
    ensures Stops([]) == []
  {
  }

  lemma TwoTexts()
    ensures FullResult(TWO_TEXTS).text == ["a", "b"]
  {
    var cs := TWO_TEXTS.content;
    var r := HeadResult(TWO_TEXTS);
    assert cs[..1][..0] == [];
    assert AddContents(r, cs[..1]) == AddContent(r, cs[0]);
    assert cs[..1] == cs[..|cs| - 1];
    assert [] + ["a"] + ["b"] == ["a", "b"];
  }
}
