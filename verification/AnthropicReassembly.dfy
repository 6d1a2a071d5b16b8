/** Why replaying an Anthropic event stream gives what the same message gives in one piece. The
    stream interleaves blocks; the proof looks at each block index on its own. */
module AnthropicReassembly {
  import opened Sequences
  import opened Sse
  import opened Llm
  import opened Anthropic

  // ---------- projections of an event sequence ----------

  predicate OnBlock(ev: Event) {
    ev.kind == "content_block_start" || ev.kind == "content_block_delta" || ev.kind == "content_block_stop"
  }

  predicate IsStop(ev: Event) {
    ev.kind == "content_block_stop"
  }

  predicate IsMeta(ev: Event) {
    ev.kind == "message_start" || ev.kind == "message_delta"
  }

  /** The events that carry the model and the token counts. */
  function Meta(evs: seq<Event>): seq<Event> {
    FilterMap(ev => if IsMeta(ev) then Some(ev) else None, evs)
  }

  /** The events of the block at index i. */
  function OnIndex(evs: seq<Event>, i: int): seq<Event> {
    if evs == [] then []
    else
      var ev := evs[|evs| - 1];
      OnIndex(evs[..|evs| - 1], i) + (if OnBlock(ev) && ev.index == i then [ev] else [])
  }

  /** The indices of the stop events, in order. */
  function Stops(evs: seq<Event>): seq<int> {
    if evs == [] then []
    else
      var ev := evs[|evs| - 1];
      Stops(evs[..|evs| - 1]) + (if IsStop(ev) then [ev.index] else [])
  }

  // ---------- one index on its own ----------

  function LocalStep(open: Option<Block>, ev: Event): Option<Block> {
    match EventKindOf(ev.kind)
    case BlockStart =>
      if ev.contentBlock.None? then open
      else Some(Block(ev.contentBlock.value.kind, ev.contentBlock.value.name, ""))
    case BlockDelta =>
      if open.None? || ev.delta.None? then open
      else Some(open.value.(buf := open.value.buf + Fragment(ev.delta.value)))
    case BlockStop => None
    case _ => open
  }

  function Local(p: seq<Event>): Option<Block> {
    if p == [] then None else LocalStep(Local(p[..|p| - 1]), p[|p| - 1])
  }

  /** What is open just before each stop. */
  function AtStops(p: seq<Event>): seq<Option<Block>> {
    if p == [] then []
    else
      var front := p[..|p| - 1];
      AtStops(front) + (if IsStop(p[|p| - 1]) then [Local(front)] else [])
  }

  function Lookup(blocks: map<int, Block>, i: int): Option<Block> {
    if i in blocks then Some(blocks[i]) else None
  }

  lemma LocalSnoc(p: seq<Event>, ev: Event)
    ensures Local(p + [ev]) == LocalStep(Local(p), ev)
    ensures AtStops(p + [ev]) == AtStops(p) + (if IsStop(ev) then [Local(p)] else [])
  {
    assert (p + [ev])[..|p|] == p;
  }

  lemma StepView(s: State, ev: Event, i: int)
    ensures Lookup(Step(s, ev).blocks, i)
         == if OnBlock(ev) && ev.index == i then LocalStep(Lookup(s.blocks, i), ev) else Lookup(s.blocks, i)
  {
  }

  lemma NothingOpen(i: int)
    ensures Lookup(START.blocks, i) == Local([])
  {
  }

  /** The parser's map at index i is the fold of the events on index i. */
  lemma {:induction false} LocalView(evs: seq<Event>, i: int)
    ensures Lookup(Run(evs).blocks, i) == Local(OnIndex(evs, i))
  {
    hide Step, LocalStep, Lookup, Local;
    if evs == [] {
      NothingOpen(i);
    } else {
      var front, ev := evs[..|evs| - 1], evs[|evs| - 1];
      LocalView(front, i);
      StepView(Run(front), ev, i);
      assert OnIndex(front, i) + [] == OnIndex(front, i);
      LocalSnoc(OnIndex(front, i), ev);
    }
  }

  // ---------- the blocks closed, in stop order ----------

  function Closed(evs: seq<Event>): seq<Option<Block>> {
    if evs == [] then []
    else
      var front, ev := evs[..|evs| - 1], evs[|evs| - 1];
      Closed(front) + (if IsStop(ev) then [Local(OnIndex(front, ev.index))] else [])
  }

  function EmitAll(r: Result, closed: seq<Option<Block>>): Result {
    if closed == [] then r
    else
      var front := EmitAll(r, closed[..|closed| - 1]);
      match closed[|closed| - 1]
      case None => front
      case Some(b) => Emit(front, b)
  }

  function ApplyMetas(r: Result, metas: seq<Event>): Result {
    if metas == [] then r else ApplyMeta(ApplyMetas(r, metas[..|metas| - 1]), metas[|metas| - 1])
  }

  lemma {:induction false} MetaCommutes(r: Result, ev: Event, closed: seq<Option<Block>>)
    ensures ApplyMeta(EmitAll(r, closed), ev) == EmitAll(ApplyMeta(r, ev), closed)
    ensures EmitAll(r, closed).usage == r.usage && EmitAll(r, closed).model == r.model
  {
    if closed != [] {
      MetaCommutes(r, ev, closed[..|closed| - 1]);
    }
  }

  function EmitOne(r: Result, closed: Option<Block>): Result {
    match closed
    case None => r
    case Some(b) => Emit(r, b)
  }

  lemma EmitSnoc(r: Result, closed: seq<Option<Block>>, b: Option<Block>)
    ensures EmitAll(r, closed + [b]) == EmitOne(EmitAll(r, closed), b)
  {
    assert (closed + [b])[..|closed|] == closed;
  }

  lemma MetaSnoc(evs: seq<Event>, ev: Event)
    ensures Meta(evs + [ev]) == if IsMeta(ev) then Meta(evs) + [ev] else Meta(evs)
    ensures ApplyMetas(NO_RESULT, Meta(evs) + [ev]) == ApplyMeta(ApplyMetas(NO_RESULT, Meta(evs)), ev)
  {
    FilterMapSnoc(ev => if IsMeta(ev) then Some(ev) else None, evs, ev);
    assert (Meta(evs) + [ev])[..|Meta(evs)|] == Meta(evs);
  }

  lemma StepResult(s: State, ev: Event)
    ensures Step(s, ev).result == if IsMeta(ev) then ApplyMeta(s.result, ev)
                                  else if IsStop(ev) then EmitOne(s.result, Lookup(s.blocks, ev.index))
                                  else s.result
    ensures IsMeta(ev) ==> !IsStop(ev)
  {
  }

  /** The result depends on the metadata and on the closed blocks only. */
  lemma {:induction false} Factor(evs: seq<Event>)
    ensures Run(evs).result == EmitAll(ApplyMetas(NO_RESULT, Meta(evs)), Closed(evs))
  {
    if evs != [] {
      hide Step, IsMeta, IsStop, ApplyMeta, ApplyMetas, Lookup, EmitAll, Meta, EmitOne;
      var front, ev := evs[..|evs| - 1], evs[|evs| - 1];
      Factor(front);
      StepResult(Run(front), ev);
      assert evs == front + [ev];
      MetaSnoc(front, ev);
      MetaCommutes(ApplyMetas(NO_RESULT, Meta(front)), ev, Closed(front));
      LocalView(front, ev.index);
      EmitSnoc(ApplyMetas(NO_RESULT, Meta(front)), Closed(front), Local(OnIndex(front, ev.index)));
      assert Closed(front) + [] == Closed(front);
    }
  }

  lemma {:induction false} CountBefore(s: seq<int>, k: nat)
    requires k < |s|
    ensures Count(s[..k], s[k]) < Count(s, s[k])
  {
    var n := |s| - 1;
    if k == n {
    } else {
      CountBefore(s[..n], k);
      assert s[..n][..k] == s[..k];
    }
  }

  lemma {:induction false} ClosedSizes(evs: seq<Event>, i: int)
    ensures |Closed(evs)| == |Stops(evs)|
    ensures |AtStops(OnIndex(evs, i))| == Count(Stops(evs), i)
  {
    if evs != [] {
      hide Local, LocalStep;
      var front, ev := evs[..|evs| - 1], evs[|evs| - 1];
      ClosedSizes(front, i);
      var p, stops := OnIndex(front, i), Stops(front);
      LocalSnoc(p, ev);
      assert p + [] == p && stops + [] == stops;
      assert (stops + [ev.index])[..|stops|] == stops;
    }
  }

  /** The k-th block closed is found by looking at its own index alone. */
  lemma {:induction false} ClosedAt(evs: seq<Event>, k: nat)
    requires k < |Stops(evs)|
    ensures var stops, i := Stops(evs), Stops(evs)[k];
            && |Closed(evs)| == |stops|
            && Count(stops[..k], i) < |AtStops(OnIndex(evs, i))|
            && Closed(evs)[k] == AtStops(OnIndex(evs, i))[Count(stops[..k], i)]
  {
    hide Local, LocalStep, AtStops, Count;
    var front, ev := evs[..|evs| - 1], evs[|evs| - 1];
    var stops, i := Stops(front), Stops(evs)[k];
    var p := OnIndex(front, i);
    ClosedSizes(evs, i);
    ClosedSizes(front, i);
    CountBefore(Stops(evs), k);
    LocalSnoc(p, ev);
    assert p + [] == p && stops + [] == stops;
    if k < |stops| {
      ClosedAt(front, k);
      assert Stops(evs)[..k] == stops[..k];
    } else {
      assert Stops(evs)[..k] == stops;
    }
  }

  // ---------- confluence ----------

  /** The same metadata, the same events per block index, the same order of stops. */
  ghost predicate SameProjections(a: seq<Event>, b: seq<Event>) {
    && Meta(a) == Meta(b)
    && Stops(a) == Stops(b)
    && (forall i :: OnIndex(a, i) == OnIndex(b, i))
  }

  /** However the upstream interleaves its blocks, the parser ends in the same state. */
  lemma Confluence(a: seq<Event>, b: seq<Event>)
    requires SameProjections(a, b)
    ensures Run(a) == Run(b)
  {
    forall k | 0 <= k < |Stops(a)| ensures |Closed(a)| == |Closed(b)| == |Stops(a)| && Closed(a)[k] == Closed(b)[k] {
      ClosedAt(a, k);
      ClosedAt(b, k);
    }
    ClosedSizes(a, 0);
    ClosedSizes(b, 0);
    assert Closed(a) == Closed(b);
    Factor(a);
    Factor(b);
    forall i ensures Lookup(Run(a).blocks, i) == Lookup(Run(b).blocks, i) {
      LocalView(a, i);
      LocalView(b, i);
    }
    SameMap(Run(a).blocks, Run(b).blocks);
  }

  lemma SameMap(m: map<int, Block>, n: map<int, Block>)
    requires forall i :: Lookup(m, i) == Lookup(n, i)
    ensures m == n
  {
    forall i ensures i in m <==> i in n {
      assert Lookup(m, i) == Lookup(n, i);
    }
    forall i | i in m ensures m[i] == n[i] {
      assert Lookup(m, i) == Lookup(n, i);
    }
  }

  // ---------- stream equals full ----------

  /** The piece of text that a delta brings, by the wire's names. One of another kind, such as a
      signature, brings none. */
  ghost predicate Brings(ev: Event, piece: string) {
    && ev.kind == "content_block_delta"
    && match ev.delta
       case None => piece == ""
       case Some(d) =>
         && (d.kind == "thinking_delta" ==> piece == d.thinking)
         && (d.kind == "text_delta" ==> piece == d.text)
         && (d.kind == "input_json_delta" ==> piece == d.partialJson)
         && (d.kind != "thinking_delta" && d.kind != "text_delta" && d.kind != "input_json_delta" ==> piece == "")
  }

  function Joined(pieces: seq<string>): string {
    if pieces == [] then "" else Joined(pieces[..|pieces| - 1]) + pieces[|pieces| - 1]
  }

  /** p opens a block of the kind and name, delivers the pieces one by one, and closes it. */
  ghost predicate Sends(p: seq<Event>, kind: string, name: string, pieces: seq<string>) {
    && |p| == |pieces| + 2
    && p[0].kind == "content_block_start"
    && p[0].contentBlock == Some(BlockHead(kind, name))
    && (forall j | 0 <= j < |pieces| :: Brings(p[j + 1], pieces[j]))
    && IsStop(p[|p| - 1])
  }

  /** s is the payload of c as a stream may deliver it; no JSON at all stands for "{}". */
  ghost predicate IsPayload(c: Content, s: string) {
    && (c.kind == "thinking" ==> s == c.thinking)
    && (c.kind == "text" ==> s == c.text)
    && (c.kind == "tool_use" ==> SameInput(s, c.input))
  }

  /** p is a block like c, its payload cut into pieces of any size. */
  ghost predicate CarriesBlock(p: seq<Event>, c: Content) {
    exists name, pieces ::
      Sends(p, c.kind, name, pieces) && IsPayload(c, Joined(pieces)) && (c.kind == "tool_use" ==> name == c.name)
  }

  /** The k-th block to be closed carries the k-th content block; no index is used twice. Between
      them the blocks interleave freely. */
  ghost predicate CarriesContent(evs: seq<Event>, content: seq<Content>) {
    && |Stops(evs)| == |content|
    && (forall j, k | 0 <= j < k < |content| :: Stops(evs)[j] != Stops(evs)[k])
    && (forall k | 0 <= k < |content| :: CarriesBlock(OnIndex(evs, Stops(evs)[k]), content[k]))
  }

  /** The last message_start that has a message. */
  function LastHead(metas: seq<Event>): Option<MessageHead> {
    if metas == [] then None
    else
      var ev := metas[|metas| - 1];
      if ev.kind == "message_start" && ev.message.Some? then ev.message
      else LastHead(metas[..|metas| - 1])
  }

  /** The last message_delta that has usage. */
  function LastUsage(metas: seq<Event>): Option<WireUsage> {
    if metas == [] then None
    else
      var ev := metas[|metas| - 1];
      if ev.kind == "message_delta" && ev.usage.Some? then ev.usage
      else LastUsage(metas[..|metas| - 1])
  }

  const NO_HEAD := MessageHead("", WireUsage(0, 0, 0, 0))

  /** The model and the input-side counts come from the last message_start, the output count from
      the last message_delta and never from a message_start. */
  ghost predicate CarriesMeta(metas: seq<Event>, msg: Message) {
    var head := if LastHead(metas).Some? then LastHead(metas).value else NO_HEAD;
    && head.model == msg.model
    && head.usage.inputTokens == msg.usage.inputTokens
    && head.usage.cacheReadInputTokens == msg.usage.cacheReadInputTokens
    && head.usage.cacheCreationInputTokens == msg.usage.cacheCreationInputTokens
    && (if LastUsage(metas).Some? then LastUsage(metas).value.outputTokens else 0) == msg.usage.outputTokens
  }

  lemma {:induction false} MetasSummary(metas: seq<Event>)
    ensures var r := ApplyMetas(NO_RESULT, metas);
            var head := if LastHead(metas).Some? then LastHead(metas).value else NO_HEAD;
            var output := if LastUsage(metas).Some? then LastUsage(metas).value.outputTokens else 0;
            r == NO_RESULT.(model := head.model,
                            usage := TokenUsage(head.usage.inputTokens, output,
                                                head.usage.cacheReadInputTokens,
                                                head.usage.cacheCreationInputTokens))
  {
    if metas != [] {
      MetasSummary(metas[..|metas| - 1]);
    }
  }

  lemma OneDelta(open: Block, ev: Event, piece: string)
    requires Brings(ev, piece)
    ensures LocalStep(Some(open), ev) == Some(open.(buf := open.buf + piece))
  {
    assert open.buf + "" == open.buf;
  }

  lemma BlockOpened(before: seq<Event>, head: Event)
    requires head.kind == "content_block_start" && head.contentBlock.Some?
    ensures Local(before + [head])
         == Some(Block(head.contentBlock.value.kind, head.contentBlock.value.name, ""))
    ensures AtStops(before + [head]) == AtStops(before)
  {
    LocalSnoc(before, head);
    assert AtStops(before) + [] == AtStops(before);
  }

  /** A start opens a new block, whatever came before it on the index, and the deltas add up. */
  lemma {:induction false} PiecesAccumulate(before: seq<Event>, head: Event, deltas: seq<Event>, pieces: seq<string>)
    requires head.kind == "content_block_start" && head.contentBlock.Some?
    requires |deltas| == |pieces| && forall j | 0 <= j < |deltas| :: Brings(deltas[j], pieces[j])
    ensures Local(before + [head] + deltas)
         == Some(Block(head.contentBlock.value.kind, head.contentBlock.value.name, Joined(pieces)))
    ensures AtStops(before + [head] + deltas) == AtStops(before)
    decreases |deltas|
  {
    if deltas == [] {
      assert before + [head] + deltas == before + [head];
      BlockOpened(before, head);
    } else {
      hide Brings, Local, AtStops, LocalStep, IsStop;
      var front, ev := deltas[..|deltas| - 1], deltas[|deltas| - 1];
      assert before + [head] + deltas == (before + [head] + front) + [ev];
      PiecesAccumulate(before, head, front, pieces[..|pieces| - 1]);
      LocalSnoc(before + [head] + front, ev);
      OneDelta(Local(before + [head] + front).value, ev, pieces[|pieces| - 1]);
      DeltaIsNoStop(ev, pieces[|pieces| - 1]);
    }
  }

  /** A block that is open holds what its deltas have brought since its start. */
  lemma OpenBlock(evs: seq<Event>, i: int, before: seq<Event>, head: Event, deltas: seq<Event>, pieces: seq<string>)
    requires OnIndex(evs, i) == before + [head] + deltas
    requires head.kind == "content_block_start" && head.contentBlock.Some?
    requires |deltas| == |pieces| && forall j | 0 <= j < |deltas| :: Brings(deltas[j], pieces[j])
    ensures i in Run(evs).blocks
    ensures Run(evs).blocks[i]
         == Block(head.contentBlock.value.kind, head.contentBlock.value.name, Joined(pieces))
  {
    hide Local, Run, OnIndex, Brings, Joined;
    LocalView(evs, i);
    PiecesAccumulate(before, head, deltas, pieces);
  }

  /** A block that was stopped and not started again is closed: another stop adds nothing. */
  lemma StoppedIsClosed(evs: seq<Event>, i: int)
    requires OnIndex(evs, i) != [] && IsStop(OnIndex(evs, i)[|OnIndex(evs, i)| - 1])
    ensures i !in Run(evs).blocks
  {
    hide Run, OnIndex;
    LocalView(evs, i);
  }

  lemma DeltaIsNoStop(ev: Event, piece: string)
    requires Brings(ev, piece)
    ensures !IsStop(ev)
  {
  }

  lemma NothingStopped()
    ensures AtStops([]) == []
  {
  }

  lemma BlockClosed(p: seq<Event>, kind: string, name: string, pieces: seq<string>)
    requires Sends(p, kind, name, pieces)
    ensures AtStops(p) == [Some(Block(kind, name, Joined(pieces)))]
  {
    hide Local, AtStops, Joined, Brings;
    var deltas, stop := p[1..|p| - 1], p[|p| - 1];
    assert p == ([p[0]] + deltas) + [stop];
    assert forall j | 0 <= j < |deltas| :: Brings(deltas[j], pieces[j]) by {
      assert forall j | 0 <= j < |deltas| :: deltas[j] == p[j + 1];
    }
    assert [] + [p[0]] + deltas == [p[0]] + deltas;
    PiecesAccumulate([], p[0], deltas, pieces);
    LocalSnoc([p[0]] + deltas, stop);
    NothingStopped();
  }

  lemma SameEmission(c: Content, b: Block)
    requires b.kind == c.kind && IsPayload(c, b.buf)
    requires c.kind == "tool_use" ==> b.name == c.name
    ensures forall r :: Emit(r, b) == AddContent(r, c)
  {
  }

  lemma {:induction false} NotCounted(s: seq<int>, x: int)
    requires forall j | 0 <= j < |s| :: s[j] != x
    ensures Count(s, x) == 0
  {
    if s != [] {
      NotCounted(s[..|s| - 1], x);
    }
  }

  lemma {:induction false} SameEmissions(r: Result, closed: seq<Option<Block>>, content: seq<Content>)
    requires |closed| == |content|
    requires forall k | 0 <= k < |closed| ::
               closed[k].Some? && forall r' :: Emit(r', closed[k].value) == AddContent(r', content[k])
    ensures EmitAll(r, closed) == AddContents(r, content)
  {
    if closed != [] {
      SameEmissions(r, closed[..|closed| - 1], content[..|content| - 1]);
    }
  }

  /** A stream of any fragmentation and interleaving whose blocks close in content order parses to
      the message's own blocks; the two results are equal if and only if the metadata is too. */
  lemma StreamEqualsFull(evs: seq<Event>, msg: Message)
    requires CarriesContent(evs, msg.content)
    ensures Run(evs).result.thinking == FullResult(msg).thinking
    ensures Run(evs).result.text == FullResult(msg).text
    ensures Run(evs).result.tools == FullResult(msg).tools
    ensures Run(evs).result == FullResult(msg) <==> CarriesMeta(Meta(evs), msg)
  {
    hide CarriesContent, Run, Closed, Meta, EmitAll, AddContents, ApplyMetas, LastHead, LastUsage;
    BlocksArrive(evs, msg.content);
    Factor(evs);
    MetasSummary(Meta(evs));
    var meta := ApplyMetas(NO_RESULT, Meta(evs));
    SameEmissions(meta, Closed(evs), msg.content);
    ListsIgnoreMeta(meta, HeadResult(msg), msg.content);
  }

  lemma BlocksArrive(evs: seq<Event>, content: seq<Content>)
    requires CarriesContent(evs, content)
    ensures |Closed(evs)| == |content|
    ensures forall k | 0 <= k < |content| ::
              Closed(evs)[k].Some? && forall r :: Emit(r, Closed(evs)[k].value) == AddContent(r, content[k])
  {
    hide Closed, Stops, OnIndex, AtStops, Count, Emit, AddContent, Sends, Joined, IsPayload;
    var stops, closed := Stops(evs), Closed(evs);
    ClosedSizes(evs, 0);
    forall k | 0 <= k < |content|
      ensures closed[k].Some? && forall r :: Emit(r, closed[k].value) == AddContent(r, content[k])
    {
      var p := OnIndex(evs, stops[k]);
      ClosedAt(evs, k);
      NotCounted(stops[..k], stops[k]);
      assert CarriesBlock(p, content[k]);
      var name, pieces :| Sends(p, content[k].kind, name, pieces) && IsPayload(content[k], Joined(pieces))
                          && (content[k].kind == "tool_use" ==> name == content[k].name);
      BlockClosed(p, content[k].kind, name, pieces);
      SameEmission(content[k], closed[k].value);
    }
  }

  /** The lists do not depend on the model and the usage, nor these on the lists. */
  lemma {:induction false} ListsIgnoreMeta(r: Result, q: Result, cs: seq<Content>)
    requires r.thinking == q.thinking && r.text == q.text && r.tools == q.tools
    ensures AddContents(r, cs) == AddContents(q, cs).(model := r.model, usage := r.usage)
    ensures AddContents(q, cs).model == q.model && AddContents(q, cs).usage == q.usage
  {
    if cs != [] {
      ListsIgnoreMeta(r, q, cs[..|cs| - 1]);
    }
  }

  // ---------- truncation and noise ----------

  ghost predicate Extends(r: Result, r': Result) {
    r.thinking <= r'.thinking && r.text <= r'.text && r.tools <= r'.tools
  }

  lemma StepExtends(s: State, ev: Event)
    ensures Extends(s.result, Step(s, ev).result)
  {
  }

  /** A stream cut short loses results only at the end of each list. */
  lemma {:induction false} TruncationKeepsPrefixes(a: seq<Event>, b: seq<Event>)
    ensures Extends(Run(a).result, Run(a + b).result)
  {
    if b == [] {
      assert a + b == a;
    } else {
      hide Step;
      var front := a + b[..|b| - 1];
      assert (a + b)[..|a + b| - 1] == front;
      TruncationKeepsPrefixes(a, b[..|b| - 1]);
      StepExtends(Run(front), b[|b| - 1]);
    }
  }

  /** An event that has no effect in state s: an unknown type, a missing object, or a delta or stop
      for an index that is not open. */
  predicate IsNoise(s: State, ev: Event) {
    && (ev.kind == "message_start" ==> ev.message.None?)
    && (ev.kind == "message_delta" ==> ev.usage.None?)
    && (ev.kind == "content_block_start" ==> ev.contentBlock.None?)
    && (ev.kind == "content_block_delta" ==> ev.index !in s.blocks || ev.delta.None?)
    && (ev.kind == "content_block_stop" ==> ev.index !in s.blocks)
  }

  lemma NoiseStep(s: State, ev: Event)
    requires IsNoise(s, ev)
    ensures Step(s, ev) == s
  {
  }

  lemma {:induction false} SameSuffix(a: seq<Event>, a': seq<Event>, b: seq<Event>)
    requires Run(a) == Run(a')
    ensures Run(a + b) == Run(a' + b)
  {
    if b == [] {
      assert a + b == a && a' + b == a';
    } else {
      assert (a + b)[..|a + b| - 1] == a + b[..|b| - 1];
      assert (a' + b)[..|a' + b| - 1] == a' + b[..|b| - 1];
      SameSuffix(a, a', b[..|b| - 1]);
    }
  }

  /** A line that carries no payload, does not decode, or decodes to noise can be inserted anywhere
      in a stream without changing the outcome. */
  lemma NoiseIsIgnored(before: seq<string>, line: string, after: seq<string>, decode: string -> Option<Event>)
    requires PayloadOf(line).Some? && decode(PayloadOf(line).value).Some? ==>
               IsNoise(Run(Decoded(before, decode)), decode(PayloadOf(line).value).value)
    ensures Run(Decoded(before + [line] + after, decode)) == Run(Decoded(before + after, decode))
  {
    var a := Decoded(before, decode);
    DecodedSnoc(before, line, decode);
    var a' := Decoded(before + [line], decode);
    hide IsNoise, Step, PayloadOf;
    if a' != a {
      NoiseStep(Run(a), a'[|a'| - 1]);
      assert a'[..|a'| - 1] == a;
    }
    FilterMapAppend(PayloadOf, before, after);
    FilterMapAppend(PayloadOf, before + [line], after);
    FilterMapAppend(decode, Payloads(before), Payloads(after));
    FilterMapAppend(decode, Payloads(before + [line]), Payloads(after));
    SameSuffix(a, a', Decoded(after, decode));
  }
}
