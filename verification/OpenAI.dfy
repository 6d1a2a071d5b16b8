/** The OpenAI response parser: one decoded JSON response, or a stream of chunks whose tool-call
    fragments are gathered by index and emitted at the end. JSON decoding is a function from a text
    to a typed value, None when it fails; an absent member is the empty string or 0. */
module OpenAI {
  import opened Sequences
  import opened Sse
  import opened Llm

  datatype Result = Result(text: seq<string>, tools: seq<ToolCall>, model: string, usage: TokenUsage)

  // ---------- wire types ----------

  datatype WireUsage = WireUsage(promptTokens: int, completionTokens: int)

  datatype Function = Function(name: string, arguments: string)

  datatype Choice = Choice(content: string, toolCalls: seq<Function>)

  datatype Response = Response(model: string, choices: seq<Choice>, usage: Option<WireUsage>)

  datatype ToolDelta = ToolDelta(index: int, name: string, arguments: string)

  datatype ChoiceDelta = ChoiceDelta(content: string, toolCalls: seq<ToolDelta>)

  datatype Chunk = Chunk(model: string, choices: seq<ChoiceDelta>, usage: Option<WireUsage>)

  function UsageOf(u: WireUsage): TokenUsage {
    TokenUsage(u.promptTokens, u.completionTokens, 0, 0)
  }

  // ---------- what the full parser computes ----------

  function CallsOf(fs: seq<Function>): seq<ToolCall> {
    if fs == [] then []
    else CallsOf(fs[..|fs| - 1]) + [ToolCall(fs[|fs| - 1].name, OrNoInput(fs[|fs| - 1].arguments))]
  }

  function TextsOf(cs: seq<Choice>): seq<string> {
    if cs == [] then []
    else
      var front := TextsOf(cs[..|cs| - 1]);
      if cs[|cs| - 1].content != "" then front + [cs[|cs| - 1].content] else front
  }

  function AllCallsOf(cs: seq<Choice>): seq<ToolCall> {
    if cs == [] then [] else AllCallsOf(cs[..|cs| - 1]) + CallsOf(cs[|cs| - 1].toolCalls)
  }

  function FullResult(resp: Response): Result {
    Result(TextsOf(resp.choices), AllCallsOf(resp.choices), resp.model,
           if resp.usage.Some? then UsageOf(resp.usage.value) else NO_USAGE)
  }

  method AppendCalls(tools: seq<ToolCall>, fs: seq<Function>) returns (tools': seq<ToolCall>)
    ensures tools' == tools + CallsOf(fs)
  {
    tools' := tools;
    for j := 0 to |fs|
      invariant tools' == tools + CallsOf(fs[..j])
    {
      assert fs[..j + 1][..j] == fs[..j];
      var input := fs[j].arguments;
      if input == "" {
        input := NO_INPUT;
      }
      tools' := tools' + [ToolCall(fs[j].name, input)];
    }
    assert fs[..|fs|] == fs;
  }

  method ParseFull(body: string, decode: string -> Option<Response>) returns (out: Outcome<Result>)
    ensures out == match decode(body)
                   case None => Failed(BadJson)
                   case Some(resp) => Parsed(FullResult(resp))
  {
    var decoded := decode(body);
    if decoded.None? {
      return Failed(BadJson);
    }
    var resp := decoded.value;
    var usage := NO_USAGE;
    if resp.usage.Some? {
      usage := TokenUsage(resp.usage.value.promptTokens, resp.usage.value.completionTokens, 0, 0);
    }
    var text: seq<string>, tools: seq<ToolCall> := [], [];
    for i := 0 to |resp.choices|
      invariant text == TextsOf(resp.choices[..i])
      invariant tools == AllCallsOf(resp.choices[..i])
    {
      assert resp.choices[..i + 1][..i] == resp.choices[..i];
      var choice := resp.choices[i];
      if choice.content != "" {
        text := text + [choice.content];
      }
      tools := AppendCalls(tools, choice.toolCalls);
    }
    assert resp.choices[..|resp.choices|] == resp.choices;
    out := Parsed(Result(text, tools, resp.model, usage));
  }

  // ---------- what the stream parser computes ----------

  datatype Fragment = Fragment(name: string, args: string)

  datatype State = State(model: string, usage: TokenUsage, text: string, fragments: map<int, Fragment>)

  const START := State("", NO_USAGE, "", map[])

  function AddFragment(m: map<int, Fragment>, t: ToolDelta): map<int, Fragment> {
    var f := if t.index in m then m[t.index] else Fragment("", "");
    m[t.index := Fragment(f.name + t.name, f.args + t.arguments)]
  }

  function AddFragments(m: map<int, Fragment>, ts: seq<ToolDelta>): map<int, Fragment> {
    if ts == [] then m else AddFragment(AddFragments(m, ts[..|ts| - 1]), ts[|ts| - 1])
  }

  function AddChoice(s: State, c: ChoiceDelta): State {
    s.(text := s.text + c.content, fragments := AddFragments(s.fragments, c.toolCalls))
  }

  function AddChoices(s: State, cs: seq<ChoiceDelta>): State {
    if cs == [] then s else AddChoice(AddChoices(s, cs[..|cs| - 1]), cs[|cs| - 1])
  }

  /** The first non-empty model stays; the last usage wins. */
  function AddHead(s: State, c: Chunk): State {
    s.(model := if s.model == "" then c.model else s.model,
       usage := if c.usage.Some? then UsageOf(c.usage.value) else s.usage)
  }

  function Step(s: State, c: Chunk): State {
    AddChoices(AddHead(s, c), c.choices)
  }

  function Run(cs: seq<Chunk>): State {
    if cs == [] then START else Step(Run(cs[..|cs| - 1]), cs[|cs| - 1])
  }

  /** The calls the emission loop has appended before it looks at index i. */
  function EmittedBelow(m: map<int, Fragment>, i: nat): seq<ToolCall> {
    if i == 0 then []
    else
      var front := EmittedBelow(m, i - 1);
      if i - 1 in m then front + [ToolCall(m[i - 1].name, OrNoInput(m[i - 1].args))] else front
  }

  function Finish(s: State): Result {
    Result(if s.text != "" then [s.text] else [], EmittedBelow(s.fragments, |s.fragments|), s.model, s.usage)
  }

  lemma RunSnoc(cs: seq<Chunk>, c: Chunk)
    ensures Run(cs + [c]) == Step(Run(cs), c)
  {
    assert (cs + [c])[..|cs|] == cs;
  }

  function StreamResult(body: string, limit: nat, decode: string -> Option<Chunk>): Outcome<Result> {
    var scan := ScanLines(body, limit);
    if scan.tooLong then Failed(LineTooLong) else Parsed(Finish(Run(Decoded(scan.lines, decode))))
  }

  // ---------- the stream parser itself ----------

  class ToolFragment {
    var name: string
    var args: string

    constructor ()
      ensures View() == Fragment("", "")
    {
      name, args := "", "";
    }

    function View(): Fragment
      reads this
    {
      Fragment(name, args)
    }

    method Write(name: string, args: string)
      modifies this
      ensures View() == Fragment(old(this.name) + name, old(this.args) + args)
    {
      this.name := this.name + name;
      this.args := this.args + args;
    }
  }

  /** The heap fragments stand for the model's, and no two indices share one. */
  ghost predicate Represents(heap: map<int, ToolFragment>, m: map<int, Fragment>)
    reads heap.Values
  {
    && heap.Keys == m.Keys
    && (forall i | i in heap :: heap[i].View() == m[i])
    && (forall i, j | i in heap && j in heap && i != j :: heap[i] != heap[j])
  }

  method GatherDelta(ghost m: map<int, Fragment>, fragments: map<int, ToolFragment>, t: ToolDelta)
    returns (fragments': map<int, ToolFragment>)
    requires Represents(fragments, m)
    modifies fragments.Values
    ensures Represents(fragments', AddFragment(m, t))
    ensures fresh(fragments'.Values - fragments.Values)
  {
    fragments' := fragments;
    var frag: ToolFragment;
    if t.index in fragments {
      frag := fragments[t.index];
    } else {
      frag := new ToolFragment();
      fragments' := fragments[t.index := frag];
    }
    frag.Write(t.name, t.arguments);
  }

  method GatherChoice(ghost s: State, fragments: map<int, ToolFragment>, text: string, c: ChoiceDelta)
    returns (fragments': map<int, ToolFragment>, text': string)
    requires Represents(fragments, s.fragments) && text == s.text
    modifies fragments.Values
    ensures Represents(fragments', AddChoice(s, c).fragments) && text' == AddChoice(s, c).text
    ensures fresh(fragments'.Values - fragments.Values)
  {
    fragments', text' := fragments, text;
    if c.content != "" {
      text' := text + c.content;
    }
    for j := 0 to |c.toolCalls|
      invariant Represents(fragments', AddFragments(s.fragments, c.toolCalls[..j]))
      invariant fresh(fragments'.Values - fragments.Values)
    {
      hide Represents;
      assert c.toolCalls[..j + 1][..j] == c.toolCalls[..j];
      fragments' := GatherDelta(AddFragments(s.fragments, c.toolCalls[..j]), fragments', c.toolCalls[j]);
    }
    assert c.toolCalls[..|c.toolCalls|] == c.toolCalls;
  }

  /** One decoded chunk; s is the state that the arguments stand for. */
  method GatherChunk(ghost s: State, fragments: map<int, ToolFragment>, text: string, c: Chunk)
    returns (fragments': map<int, ToolFragment>, text': string)
    requires Represents(fragments, s.fragments) && text == s.text
    modifies fragments.Values
    ensures Represents(fragments', Step(s, c).fragments) && text' == Step(s, c).text
    ensures fresh(fragments'.Values - fragments.Values)
  {
    fragments', text' := fragments, text;
    ghost var base := AddHead(s, c);
    for j := 0 to |c.choices|
      invariant Represents(fragments', AddChoices(base, c.choices[..j]).fragments)
      invariant text' == AddChoices(base, c.choices[..j]).text
      invariant fresh(fragments'.Values - fragments.Values)
    {
      hide Represents;
      assert c.choices[..j + 1][..j] == c.choices[..j];
      fragments', text' := GatherChoice(AddChoices(base, c.choices[..j]), fragments', text', c.choices[j]);
    }
    assert c.choices[..|c.choices|] == c.choices;
  }

  method Emit(fragments: map<int, ToolFragment>, ghost m: map<int, Fragment>) returns (tools: seq<ToolCall>)
    requires Represents(fragments, m)
    ensures tools == EmittedBelow(m, |m|)
  {
    assert |fragments.Keys| == |m.Keys|;
    tools := [];
    var i := 0;
    while i < |fragments|
      invariant 0 <= i <= |m|
      invariant tools == EmittedBelow(m, i)
    {
      if i in fragments {
        var args := fragments[i].args;
        if args == "" {
          args := NO_INPUT;
        }
        assert fragments[i].View() == m[i];
        tools := tools + [ToolCall(fragments[i].name, args)];
      }
      i := i + 1;
    }
  }

  lemma {:induction false} ChoicesKeepHead(s: State, cs: seq<ChoiceDelta>)
    ensures AddChoices(s, cs).model == s.model && AddChoices(s, cs).usage == s.usage
  {
    if cs != [] {
      ChoicesKeepHead(s, cs[..|cs| - 1]);
    }
  }

  lemma StepHead(s: State, c: Chunk)
    ensures Step(s, c).model == (if s.model == "" then c.model else s.model)
    ensures Step(s, c).usage == (if c.usage.Some? then UsageOf(c.usage.value) else s.usage)
  {
    ChoicesKeepHead(AddHead(s, c), c.choices);
  }

  /** The loop over the scanned lines. */
  method GatherLines(lines: seq<string>, decode: string -> Option<Chunk>)
    returns (model: string, usage: TokenUsage, text: string, fragments: map<int, ToolFragment>)
    ensures Represents(fragments, Run(Decoded(lines, decode)).fragments)
    ensures model == Run(Decoded(lines, decode)).model
    ensures usage == Run(Decoded(lines, decode)).usage
    ensures text == Run(Decoded(lines, decode)).text
  {
    model, usage, text, fragments := "", NO_USAGE, "", map[];
    for n := 0 to |lines|
      invariant Represents(fragments, Run(Decoded(lines[..n], decode)).fragments)
      invariant fresh(fragments.Values)
      invariant model == Run(Decoded(lines[..n], decode)).model
      invariant usage == Run(Decoded(lines[..n], decode)).usage
      invariant text == Run(Decoded(lines[..n], decode)).text
    {
      hide Represents, Run, Step;
      var line := lines[n];
      ghost var before := Decoded(lines[..n], decode);
      assert lines[..n + 1] == lines[..n] + [line];
      DecodedSnoc(lines[..n], line, decode);
      if !(DATA_PREFIX <= line) {
        continue;
      }
      var data := line[|DATA_PREFIX|..];
      if data == "" || data == DONE {
        continue;
      }
      var decoded := decode(data);
      if decoded.None? {
        continue;
      }
      var chunk := decoded.value;
      RunSnoc(before, chunk);
      StepHead(Run(before), chunk);
      if chunk.model != "" && model == "" {
        model := chunk.model;
      }
      if chunk.usage.Some? {
        usage := TokenUsage(chunk.usage.value.promptTokens, chunk.usage.value.completionTokens, 0, 0);
      }
      fragments, text := GatherChunk(Run(before), fragments, text, chunk);
    }
    assert lines[..|lines|] == lines;
  }

  method ParseStream(body: string, limit: nat, decode: string -> Option<Chunk>)
    returns (out: Outcome<Result>)
    ensures out == StreamResult(body, limit, decode)
  {
    hide Run, Represents, ScanLines, Decoded;
    var scan := ScanLines(body, limit);
    var model, usage, text, fragments := GatherLines(scan.lines, decode);
    if scan.tooLong {
      return Failed(LineTooLong);
    }
    var texts: seq<string> := [];
    if text != "" {
      texts := texts + [text];
    }
    ghost var s := Run(Decoded(scan.lines, decode));
    var tools := Emit(fragments, s.fragments);
    assert Finish(s) == Result(texts, tools, model, usage);
    out := Parsed(Result(texts, tools, model, usage));
  }
}
