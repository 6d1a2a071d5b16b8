/** The Anthropic response parser: one decoded JSON message, or a stream of events folded into a map
    of open blocks. JSON decoding is a function from a text to a typed value, None when it fails; an
    absent member is the empty string or 0, and an absent object is None. */
module Anthropic {
  import opened Sequences
  import opened Sse
  import opened Llm

  datatype Result = Result(thinking: seq<string>, text: seq<string>, tools: seq<ToolCall>,
                           model: string, usage: TokenUsage)

  const NO_RESULT := Result([], [], [], "", NO_USAGE)

  // ---------- wire types ----------

  datatype WireUsage = WireUsage(inputTokens: int, outputTokens: int,
                                 cacheCreationInputTokens: int, cacheReadInputTokens: int)

  datatype Content = Content(kind: string, thinking: string, text: string, name: string, input: string)

  datatype Message = Message(model: string, content: seq<Content>, usage: WireUsage)

  datatype MessageHead = MessageHead(model: string, usage: WireUsage)

  datatype BlockHead = BlockHead(kind: string, name: string)

  datatype Delta = Delta(kind: string, thinking: string, text: string, partialJson: string)

  datatype Event = Event(kind: string, message: Option<MessageHead>, index: int,
                         contentBlock: Option<BlockHead>, delta: Option<Delta>, usage: Option<WireUsage>)

  datatype EventKind = MessageStart | MessageDelta | BlockStart | BlockDelta | BlockStop | OtherEvent

  function EventKindOf(kind: string): EventKind {
    if kind == "message_start" then MessageStart
    else if kind == "message_delta" then MessageDelta
    else if kind == "content_block_start" then BlockStart
    else if kind == "content_block_delta" then BlockDelta
    else if kind == "content_block_stop" then BlockStop
    else OtherEvent
  }

  datatype BlockKind = Thinking | Text | ToolUse | OtherBlock

  function BlockKindOf(kind: string): BlockKind {
    if kind == "thinking" then Thinking
    else if kind == "text" then Text
    else if kind == "tool_use" then ToolUse
    else OtherBlock
  }

  /** The part of a delta that is appended to the open block's buffer. */
  function Fragment(d: Delta): string {
    if d.kind == "thinking_delta" then d.thinking
    else if d.kind == "text_delta" then d.text
    else if d.kind == "input_json_delta" then d.partialJson
    else ""
  }

  // ---------- what the full parser computes ----------

  function AddContent(r: Result, c: Content): Result {
    match BlockKindOf(c.kind)
    case Thinking => if c.thinking != "" then r.(thinking := r.thinking + [c.thinking]) else r
    case Text => if c.text != "" then r.(text := r.text + [c.text]) else r
    case ToolUse => r.(tools := r.tools + [ToolCall(c.name, OrNoInput(c.input))])
    case OtherBlock => r
  }

  function AddContents(r: Result, cs: seq<Content>): Result {
    if cs == [] then r else AddContent(AddContents(r, cs[..|cs| - 1]), cs[|cs| - 1])
  }

  /** The message's model and usage, without its content. */
  function HeadResult(msg: Message): Result {
    var u := msg.usage;
    NO_RESULT.(model := msg.model,
               usage := TokenUsage(u.inputTokens, u.outputTokens,
                                   u.cacheReadInputTokens, u.cacheCreationInputTokens))
  }

  function FullResult(msg: Message): Result {
    AddContents(HeadResult(msg), msg.content)
  }

  method ParseFull(body: string, decode: string -> Option<Message>) returns (out: Outcome<Result>)
    ensures out == match decode(body)
                   case None => Failed(BadJson)
                   case Some(msg) => Parsed(FullResult(msg))
  {
    var decoded := decode(body);
    if decoded.None? {
      return Failed(BadJson);
    }
    var msg := decoded.value;
    var thinking: seq<string>, text: seq<string>, tools: seq<ToolCall> := [], [], [];
    var usage := TokenUsage(msg.usage.inputTokens, msg.usage.outputTokens,
                            msg.usage.cacheReadInputTokens, msg.usage.cacheCreationInputTokens);
    for i := 0 to |msg.content|
      invariant Result(thinking, text, tools, msg.model, usage)
             == AddContents(Result([], [], [], msg.model, usage), msg.content[..i])
    {
      assert msg.content[..i + 1][..i] == msg.content[..i];
      var block := msg.content[i];
      match BlockKindOf(block.kind) {
        case Thinking =>
          if block.thinking != "" { thinking := thinking + [block.thinking]; }
        case Text =>
          if block.text != "" { text := text + [block.text]; }
        case ToolUse =>
          var input := NO_INPUT;
          if |block.input| > 0 { input := block.input; }
          tools := tools + [ToolCall(block.name, input)];
        case OtherBlock =>
      }
    }
    assert msg.content[..|msg.content|] == msg.content;
    out := Parsed(Result(thinking, text, tools, msg.model, usage));
  }

  // ---------- what the stream parser computes ----------

  /** An open block and the text received for it so far. */
  datatype Block = Block(kind: string, name: string, buf: string)

  datatype State = State(blocks: map<int, Block>, result: Result)

  const START := State(map[], NO_RESULT)

  /** A closed block leaves its trace in one of the three lists. */
  function Emit(r: Result, b: Block): Result {
    match BlockKindOf(b.kind)
    case Thinking => if b.buf != "" then r.(thinking := r.thinking + [b.buf]) else r
    case Text => if b.buf != "" then r.(text := r.text + [b.buf]) else r
    case ToolUse => r.(tools := r.tools + [ToolCall(b.name, OrNoInput(b.buf))])
    case OtherBlock => r
  }

  /** message_start gives the model and all counts but the output count; message_delta gives that. */
  function ApplyMeta(r: Result, ev: Event): Result {
    match EventKindOf(ev.kind)
    case MessageStart =>
      if ev.message.None? then r
      else
        var u := ev.message.value.usage;
        r.(model := ev.message.value.model,
           usage := TokenUsage(u.inputTokens, r.usage.output,
                               u.cacheReadInputTokens, u.cacheCreationInputTokens))
    case MessageDelta =>
      if ev.usage.None? then r else r.(usage := r.usage.(output := ev.usage.value.outputTokens))
    case _ => r
  }

  function Step(s: State, ev: Event): State {
    match EventKindOf(ev.kind)
    case BlockStart =>
      if ev.contentBlock.None? then s
      else
        var head := ev.contentBlock.value;
        s.(blocks := s.blocks[ev.index := Block(head.kind, head.name, "")])
    case BlockDelta =>
      if ev.index !in s.blocks || ev.delta.None? then s
      else
        var b := s.blocks[ev.index];
        s.(blocks := s.blocks[ev.index := b.(buf := b.buf + Fragment(ev.delta.value))])
    case BlockStop =>
      if ev.index !in s.blocks then s
      else State(s.blocks - {ev.index}, Emit(s.result, s.blocks[ev.index]))
    case _ => s.(result := ApplyMeta(s.result, ev))
  }

  function Run(evs: seq<Event>): State {
    if evs == [] then START else Step(Run(evs[..|evs| - 1]), evs[|evs| - 1])
  }

  lemma RunSnoc(evs: seq<Event>, ev: Event)
    ensures Run(evs + [ev]) == Step(Run(evs), ev)
  {
    assert (evs + [ev])[..|evs|] == evs;
  }

  /** The whole stream parser: the scanned lines, decoded and folded. */
  function StreamResult(body: string, limit: nat, decode: string -> Option<Event>): Outcome<Result> {
    var scan := ScanLines(body, limit);
    if scan.tooLong then Failed(LineTooLong) else Parsed(Run(Decoded(scan.lines, decode)).result)
  }

  // ---------- the stream parser itself ----------

  class StreamBlock {
    const kind: string
    const name: string
    var buf: string

    constructor (kind: string, name: string)
      ensures View() == Block(kind, name, "")
    {
      this.kind, this.name, this.buf := kind, name, "";
    }

    function View(): Block
      reads this
    {
      Block(kind, name, buf)
    }

    method WriteString(s: string)
      modifies this
      ensures View() == old(View()).(buf := old(buf) + s)
    {
      buf := buf + s;
    }
  }

  /** The heap blocks stand for the model's: same indices, same contents, and no two indices share
      one, so that writing to one block leaves the others alone. */
  ghost predicate Represents(heap: map<int, StreamBlock>, blocks: map<int, Block>)
    reads heap.Values
  {
    && heap.Keys == blocks.Keys
    && (forall i | i in heap :: heap[i].View() == blocks[i])
    && (forall i, j | i in heap && j in heap && i != j :: heap[i] != heap[j])
  }

  /** The list appended to when a block closes. */
  method EmitBlock(b: StreamBlock, r: Result) returns (r': Result)
    ensures r' == Emit(r, b.View())
  {
    r' := r;
    match BlockKindOf(b.kind) {
      case Thinking =>
        if b.buf != "" { r' := r.(thinking := r.thinking + [b.buf]); }
      case Text =>
        if b.buf != "" { r' := r.(text := r.text + [b.buf]); }
      case ToolUse =>
        var input := b.buf;
        if input == "" { input := NO_INPUT; }
        r' := r.(tools := r.tools + [ToolCall(b.name, input)]);
      case OtherBlock =>
    }
  }

  method WriteDelta(b: StreamBlock, d: Delta)
    modifies b
    ensures b.View() == old(b.View()).(buf := old(b.buf) + Fragment(d))
  {
    if d.kind == "thinking_delta" {
      b.WriteString(d.thinking);
    } else if d.kind == "text_delta" {
      b.WriteString(d.text);
    } else if d.kind == "input_json_delta" {
      b.WriteString(d.partialJson);
    }
  }

  /** The switch on one decoded event; s is the state that the arguments stand for. */
  method Handle(ghost s: State, ev: Event, blocks: map<int, StreamBlock>, r: Result)
    returns (blocks': map<int, StreamBlock>, r': Result)
    requires Represents(blocks, s.blocks) && r == s.result
    modifies blocks.Values
    ensures Represents(blocks', Step(s, ev).blocks) && r' == Step(s, ev).result
    ensures fresh(blocks'.Values - blocks.Values)
  {
    blocks', r' := blocks, r;
    match EventKindOf(ev.kind) {
      case MessageStart =>
        if ev.message.Some? {
          var u := ev.message.value.usage;
          r' := r.(model := ev.message.value.model,
                   usage := r.usage.(input := u.inputTokens,
                                     cacheRead := u.cacheReadInputTokens,
                                     cacheWrite := u.cacheCreationInputTokens));
        }
      case MessageDelta =>
        if ev.usage.Some? {
          r' := r.(usage := r.usage.(output := ev.usage.value.outputTokens));
        }
      case BlockStart =>
        if ev.contentBlock.Some? {
          var b := new StreamBlock(ev.contentBlock.value.kind, ev.contentBlock.value.name);
          blocks' := blocks[ev.index := b];
        }
      case BlockDelta =>
        if ev.index in blocks && ev.delta.Some? {
          WriteDelta(blocks[ev.index], ev.delta.value);
        }
      case BlockStop =>
        if ev.index in blocks {
          r' := EmitBlock(blocks[ev.index], r);
          blocks' := blocks - {ev.index};
        }
      case OtherEvent =>
    }
  }

  /** The loop over the scanned lines. */
  method ReplayLines(lines: seq<string>, decode: string -> Option<Event>) returns (r: Result)
    ensures r == Run(Decoded(lines, decode)).result
  {
    r := NO_RESULT;
    var blocks: map<int, StreamBlock> := map[];
    for n := 0 to |lines|
      invariant Represents(blocks, Run(Decoded(lines[..n], decode)).blocks)
      invariant fresh(blocks.Values)
      invariant r == Run(Decoded(lines[..n], decode)).result
    {
      hide Represents, Run, Step;
      var line := lines[n];
      ghost var before := Decoded(lines[..n], decode);
      assert lines[..n + 1] == lines[..n] + [line];
      DecodedSnoc(lines[..n], line, decode);
      if !(DATA_PREFIX <= line) {
        continue;
      }
      var data := line[|DATA_PREFIX|..];
      if data == "" || data == DONE {
        continue;
      }
      var decoded := decode(data);
      if decoded.None? {
        continue;
      }
      RunSnoc(before, decoded.value);
      blocks, r := Handle(Run(before), decoded.value, blocks, r);
    }
    assert lines[..|lines|] == lines;
  }

  method ParseStream(body: string, limit: nat, decode: string -> Option<Event>)
    returns (out: Outcome<Result>)
    ensures out == StreamResult(body, limit, decode)
  {
    var scan := ScanLines(body, limit);
    var r := ReplayLines(scan.lines, decode);
    out := if scan.tooLong then Failed(LineTooLong) else Parsed(r);
  }
}
