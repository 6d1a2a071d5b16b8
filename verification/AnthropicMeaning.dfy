/** What the two Anthropic parsers yield, said in the wire's own names: kinds of blocks and deltas,
    payloads, model and counts. */
module AnthropicMeaning {
  import opened Sequences
  import opened Llm
  import opened Anthropic
  import opened AnthropicReassembly

  // ---------- a message in one piece ----------

  function ThoughtOf(c: Content): Option<string> {
    if c.kind == "thinking" && c.thinking != "" then Some(c.thinking) else None
  }

  function SaidOf(c: Content): Option<string> {
    if c.kind == "text" && c.text != "" then Some(c.text) else None
  }

  function CalledOf(c: Content): Option<ToolCall> {
    if c.kind == "tool_use" then Some(ToolCall(c.name, if c.input == "" then "{}" else c.input)) else None
  }

  lemma {:induction false} ContentsYield(r: Result, cs: seq<Content>)
    ensures AddContents(r, cs) == r.(thinking := r.thinking + FilterMap(ThoughtOf, cs),
                                     text := r.text + FilterMap(SaidOf, cs),
                                     tools := r.tools + FilterMap(CalledOf, cs))
  {
    if cs == [] {
      assert r.thinking + [] == r.thinking && r.text + [] == r.text && r.tools + [] == r.tools;
    } else {
      ContentsYield(r, cs[..|cs| - 1]);
    }
  }

  /** The non-empty thoughts, the non-empty texts and the calls, each in content order; no input is
      stored as "{}"; and the message's model and counts. */
  lemma FullYields(msg: Message)
    ensures FullResult(msg)
         == Result(FilterMap(ThoughtOf, msg.content), FilterMap(SaidOf, msg.content), FilterMap(CalledOf, msg.content),
                   msg.model,
                   TokenUsage(input := msg.usage.inputTokens, output := msg.usage.outputTokens,
                              cacheRead := msg.usage.cacheReadInputTokens,
                              cacheWrite := msg.usage.cacheCreationInputTokens))
  {
    ContentsYield(HeadResult(msg), msg.content);
    assert [] + FilterMap(ThoughtOf, msg.content) == FilterMap(ThoughtOf, msg.content);
    assert [] + FilterMap(SaidOf, msg.content) == FilterMap(SaidOf, msg.content);
    assert [] + FilterMap(CalledOf, msg.content) == FilterMap(CalledOf, msg.content);
  }

  // ---------- a stream ----------

  /** A block as it is sent: its payload in pieces of any size. */
  datatype Sent = Sent(kind: string, name: string, pieces: seq<string>)

  /** The k-th block to be closed is sent[k], on an index of its own. */
  ghost predicate StreamSends(evs: seq<Event>, sent: seq<Sent>) {
    && |Stops(evs)| == |sent|
    && (forall j, k | 0 <= j < k < |sent| :: Stops(evs)[j] != Stops(evs)[k])
    && (forall k | 0 <= k < |sent| :: Sends(OnIndex(evs, Stops(evs)[k]), sent[k].kind, sent[k].name, sent[k].pieces))
  }

  function SentThought(b: Sent): Option<string> {
    if b.kind == "thinking" && Joined(b.pieces) != "" then Some(Joined(b.pieces)) else None
  }

  function SentText(b: Sent): Option<string> {
    if b.kind == "text" && Joined(b.pieces) != "" then Some(Joined(b.pieces)) else None
  }

  function SentCall(b: Sent): Option<ToolCall> {
    if b.kind == "tool_use" then
      Some(ToolCall(b.name, if Joined(b.pieces) == "" then "{}" else Joined(b.pieces)))
    else None
  }

  function AsContent(b: Sent): Content {
    Content(b.kind, Joined(b.pieces), Joined(b.pieces), b.name, Joined(b.pieces))
  }

  lemma SentIsCarried(evs: seq<Event>, sent: seq<Sent>, content: seq<Content>)
    requires StreamSends(evs, sent) && |content| == |sent|
    requires forall k | 0 <= k < |sent| :: content[k] == AsContent(sent[k])
    ensures CarriesContent(evs, content)
  {
    hide Sends, Joined, OnIndex, Stops;
    forall k | 0 <= k < |content| ensures CarriesBlock(OnIndex(evs, Stops(evs)[k]), content[k]) {
      var b := sent[k];
      assert Sends(OnIndex(evs, Stops(evs)[k]), content[k].kind, b.name, b.pieces);
      assert IsPayload(content[k], Joined(b.pieces));
    }
  }

  /** Whatever the sizes of the pieces and the interleaving of the blocks, the stream yields the joined
      thoughts and texts that are not empty and the calls with their joined input, or "{}", in the
      order in which the blocks close; the model and the input counts of the last message_start, and
      the output count of the last message_delta. */
  lemma StreamYields(evs: seq<Event>, sent: seq<Sent>)
    requires StreamSends(evs, sent)
    ensures var r := Run(evs).result;
            && r.thinking == FilterMap(SentThought, sent)
            && r.text == FilterMap(SentText, sent)
            && r.tools == FilterMap(SentCall, sent)
    ensures StreamMeta(evs, Run(evs).result.model, Run(evs).result.usage)
  {
    hide Run, StreamSends, StreamMeta, FullResult, FilterMap, Joined;
    var content := seq(|sent|, k requires 0 <= k < |sent| => AsContent(sent[k]));
    var msg := Message("", content, WireUsage(0, 0, 0, 0));
    SentIsCarried(evs, sent, content);
    StreamEqualsFull(evs, msg);
    FullYields(msg);
    FilterMapSame(ThoughtOf, content, SentThought, sent);
    FilterMapSame(SaidOf, content, SentText, sent);
    FilterMapSame(CalledOf, content, SentCall, sent);
    MetaYields(evs);
  }

  /** Model and counts, whatever the blocks do. */
  ghost predicate StreamMeta(evs: seq<Event>, model: string, usage: TokenUsage) {
    && (match LastHead(Meta(evs))
        case None => model == "" && usage.input == 0 && usage.cacheRead == 0 && usage.cacheWrite == 0
        case Some(head) =>
          && model == head.model && usage.input == head.usage.inputTokens
          && usage.cacheRead == head.usage.cacheReadInputTokens
          && usage.cacheWrite == head.usage.cacheCreationInputTokens)
    && (match LastUsage(Meta(evs))
        case None => usage.output == 0
        case Some(u) => usage.output == u.outputTokens)
  }

  lemma MetaYields(evs: seq<Event>)
    ensures StreamMeta(evs, Run(evs).result.model, Run(evs).result.usage)
  {
    Factor(evs);
    MetasSummary(Meta(evs));
    MetaCommutes(ApplyMetas(NO_RESULT, Meta(evs)), Event("", None, 0, None, None, None), Closed(evs));
  }
}
