/** What a response leaves in the audit, said in the wire's own names, provider by provider and form
    by form: which rows with which fields, or which record. */
module HandlerMeaning {
  import opened Sequences
  import opened Llm
  import opened Handler
  import opened SapPath
  import Sse
  import Anthropic
  import AnthropicReassembly
  import AnthropicMeaning
  import OpenAI
  import OpenAIReassembly
  import OpenAIMeaning

  // ---------- rows that stand for an answer ----------

  predicate IsBlank(t: Turn) {
    t.model == "" && t.thinking == [] && t.text == [] && t.tools == []
  }

  /** An answer without model and content leaves no row; any other one row for each call, or one. All
      say the same but for the call. */
  ghost predicate RowsAre(rows: seq<AuditEvent>, t: Turn) {
    if IsBlank(t) then rows == []
    else
      && |rows| == (if t.tools == [] then 1 else |t.tools|)
      && forall i | 0 <= i < |rows| ::
           && rows[i].thinking == t.thinking && rows[i].assistantText == t.text
           && rows[i].model == t.model && rows[i].resourceGroup == t.resourceGroup
           && rows[i].inputTokens == t.usage.input && rows[i].outputTokens == t.usage.output
           && rows[i].cacheReadTokens == t.usage.cacheRead && rows[i].cacheWriteTokens == t.usage.cacheWrite
           && rows[i].toolName == (if t.tools == [] then "" else t.tools[i].name)
           && rows[i].toolInput == (if t.tools == [] then "" else t.tools[i].input)
  }

  lemma RowsOfTurn(d: Decoders, q: Request, r: Response, t: Turn)
    requires MeaningOf(d, q, r) == TurnOrNothing(t)
    ensures RowsAre(Rows(d, q, r), t)
  {
    hide MeaningOf;
    if MeaningOf(d, q, r).Structured? {
      RowsCarryTurn(d, q, r);
    }
  }

  // ---------- Anthropic ----------

  lemma AnthropicRows(d: Decoders, q: Request, r: Response, msg: Anthropic.Message)
    requires q.upstream == "anthropic" && !r.isStream && d.anthropicMessage(r.body) == Some(msg)
    ensures RowsAre(Rows(d, q, r),
                    Turn(thinking := FilterMap(AnthropicMeaning.ThoughtOf, msg.content),
                         text := FilterMap(AnthropicMeaning.SaidOf, msg.content),
                         tools := FilterMap(AnthropicMeaning.CalledOf, msg.content),
                         model := msg.model, resourceGroup := "",
                         usage := TokenUsage(input := msg.usage.inputTokens, output := msg.usage.outputTokens,
                                             cacheRead := msg.usage.cacheReadInputTokens,
                                             cacheWrite := msg.usage.cacheCreationInputTokens)))
  {
    hide Rows, RowsAre, Anthropic.FullResult, TurnOrNothing, FilterMap;
    AnthropicMeaning.FullYields(msg);
    var a := Anthropic.FullResult(msg);
    RowsOfTurn(d, q, r, Turn(a.thinking, a.text, a.tools, a.model, "", a.usage));
  }

  lemma AnthropicStreamRows(d: Decoders, q: Request, r: Response, sent: seq<AnthropicMeaning.Sent>)
      returns (t: Turn)
    requires q.upstream == "anthropic" && r.isStream && !Sse.ScanLines(r.body, d.limit).tooLong
    requires AnthropicMeaning.StreamSends(Sse.Decoded(Sse.ScanLines(r.body, d.limit).lines, d.anthropicEvent), sent)
    ensures t.thinking == FilterMap(AnthropicMeaning.SentThought, sent)
    ensures t.text == FilterMap(AnthropicMeaning.SentText, sent)
    ensures t.tools == FilterMap(AnthropicMeaning.SentCall, sent)
    ensures t.resourceGroup == ""
    ensures AnthropicMeaning.StreamMeta(
              Sse.Decoded(Sse.ScanLines(r.body, d.limit).lines, d.anthropicEvent), t.model, t.usage)
    ensures RowsAre(Rows(d, q, r), t)
  {
    hide Rows, RowsAre, TurnOrNothing, FilterMap, Anthropic.Run, Sse.ScanLines, Sse.Decoded;
    hide AnthropicMeaning.StreamSends, AnthropicMeaning.StreamMeta;
    var evs := Sse.Decoded(Sse.ScanLines(r.body, d.limit).lines, d.anthropicEvent);
    AnthropicMeaning.StreamYields(evs, sent);
    var a := Anthropic.Run(evs).result;
    t := Turn(a.thinking, a.text, a.tools, a.model, "", a.usage);
    RowsOfTurn(d, q, r, t);
  }

  // ---------- OpenAI and SAP AI Core ----------

  /** Whose answer is parsed as OpenAI's. */
  predicate SpeaksOpenAI(q: Request) {
    q.upstream == "openai" || (q.upstream == "sap-ai-core" && !IsNative(q.path))
  }

  /** For SAP AI Core the deployment that the path names, if any, takes the place of the model. */
  ghost predicate ModelIs(q: Request, answered: string, model: string) {
    if q.upstream == "sap-ai-core" then
      && (forall id, i, j | FirstNamed(q.path, id, i, j) :: model == id)
      && ((forall i, j :: !Names(q.path, i, j)) ==> model == answered)
    else model == answered
  }

  ghost predicate GroupIs(q: Request, group: string) {
    group == if q.upstream == "sap-ai-core" then q.resourceGroup else ""
  }

  lemma FirstNamedUnique(path: string, id: string, i: int, j: int)
    requires FirstNamed(path, id, i, j)
    ensures DeploymentID(path) == id && id != ""
  {
    hide DEPLOYMENTS;
    var p, q := DeploymentIDIsFirst(path);
    assert p == i;
    SameEnd(path, i, j, q);
  }

  lemma SameEnd(path: string, i: int, j: int, k: int)
    requires Names(path, i, j) && Names(path, i, k)
    ensures j == k
  {
    hide DEPLOYMENTS;
    var n := i + |DEPLOYMENTS|;
    if j < k {
      Sse.InSlice(path, '/', n, j, k);
      assert false;
    } else if k < j {
      Sse.InSlice(path, '/', n, k, j);
      assert false;
    }
  }

  lemma ModelFromPath(q: Request, answered: string)
    ensures var id := DeploymentID(q.path);
            ModelIs(q, answered,
                    if q.upstream != "sap-ai-core" then answered else if id == "" then answered else id)
  {
    hide DeploymentID, FirstNamed, Names;
    forall id, i, j | FirstNamed(q.path, id, i, j) ensures DeploymentID(q.path) == id && id != "" {
      FirstNamedUnique(q.path, id, i, j);
    }
    var i, j := DeploymentIDIsFirst(q.path);
    if DeploymentID(q.path) != "" {
      assert Names(q.path, i, j) by { FirstIsNamed(q.path, DeploymentID(q.path), i, j); }
    }
  }

  lemma FirstIsNamed(path: string, id: string, i: int, j: int)
    requires FirstNamed(path, id, i, j)
    ensures Names(path, i, j)
  {
  }

  /** The turn made of OpenAI's result. */
  lemma OpenAITurn(d: Decoders, q: Request, r: Response, o: OpenAI.Result) returns (t: Turn)
    requires SpeaksOpenAI(q) && OpenAIOutcome(d, r) == Parsed(o)
    ensures t.thinking == [] && t.text == o.text && t.tools == o.tools && t.usage == o.usage
    ensures ModelIs(q, o.model, t.model) && GroupIs(q, t.resourceGroup)
    ensures RowsAre(Rows(d, q, r), t)
  {
    hide Rows, RowsAre, TurnOrNothing, OpenAIOutcome, ModelIs, DeploymentID, IsNative;
    ModelFromPath(q, o.model);
    var id := DeploymentID(q.path);
    t := if q.upstream == "openai" then Turn([], o.text, o.tools, o.model, "", o.usage)
         else Turn([], o.text, o.tools, if id == "" then o.model else id, q.resourceGroup, o.usage);
    RowsOfTurn(d, q, r, t);
  }

  lemma OpenAIRows(d: Decoders, q: Request, r: Response, resp: OpenAI.Response) returns (t: Turn)
    requires SpeaksOpenAI(q) && !r.isStream && d.openAIResponse(r.body) == Some(resp)
    ensures t.thinking == []
    ensures t.text == FilterMap(OpenAIMeaning.SaidOf, resp.choices)
    ensures t.tools == OpenAIMeaning.CalledBy(resp.choices)
    ensures ModelIs(q, resp.model, t.model) && GroupIs(q, t.resourceGroup)
    ensures OpenAIMeaning.Reports(resp.usage, t.usage)
    ensures RowsAre(Rows(d, q, r), t)
  {
    hide Rows, RowsAre, ModelIs, SpeaksOpenAI, GroupIs, OpenAI.FullResult, FilterMap, OpenAIMeaning.Reports;
    OpenAIMeaning.FullYields(resp);
    t := OpenAITurn(d, q, r, OpenAI.FullResult(resp));
  }

  lemma OpenAIStreamRows(d: Decoders, q: Request, r: Response) returns (t: Turn, kept: seq<int>)
    requires SpeaksOpenAI(q) && r.isStream && !Sse.ScanLines(r.body, d.limit).tooLong
    ensures var chunks := Sse.Decoded(Sse.ScanLines(r.body, d.limit).lines, d.openAIChunk);
            && t.thinking == []
            && OpenAIMeaning.StreamTurns(chunks, t.text, t.tools, kept)
            && ModelIs(q, OpenAIReassembly.FirstModel(chunks), t.model) && GroupIs(q, t.resourceGroup)
            && OpenAIMeaning.Reports(OpenAIReassembly.LastUsage(chunks), t.usage)
    ensures RowsAre(Rows(d, q, r), t)
  {
    hide Rows, RowsAre, ModelIs, SpeaksOpenAI, GroupIs, Sse.ScanLines, Sse.Decoded, OpenAI.Finish, OpenAI.Run;
    hide OpenAIMeaning.Reports, OpenAIMeaning.StreamTurns;
    var chunks := Sse.Decoded(Sse.ScanLines(r.body, d.limit).lines, d.openAIChunk);
    kept := OpenAIMeaning.StreamYields(chunks);
    t := OpenAITurn(d, q, r, OpenAI.Finish(OpenAI.Run(chunks)));
  }

  /** An answer of SAP AI Core's native API leaves one row that names the deployment, or none. */
  lemma NativeRows(d: Decoders, q: Request, r: Response) returns (model: string)
    requires q.upstream == "sap-ai-core" && IsNative(q.path)
    ensures ModelIs(q, "", model)
    ensures RowsAre(Rows(d, q, r), Turn([], [], [], model, q.resourceGroup, TokenUsage(0, 0, 0, 0)))
  {
    hide Rows, RowsAre, TurnOrNothing, DeploymentID, IsNative, ModelIs;
    model := DeploymentID(q.path);
    ModelFromPath(q, "");
    RowsOfTurn(d, q, r, Turn([], [], [], model, q.resourceGroup, TokenUsage(0, 0, 0, 0)));
  }

  // ---------- when there are no rows ----------

  /** The response leaves no row and one record with this error, and counts no tokens. */
  ghost predicate OnlyRecorded(d: Decoders, q: Request, r: Response, error: Option<ParseError>) {
    var l := Credit(Ledger([], [], 0, 0), d, q, r, true);
    && Rows(d, q, r) == [] && l.rows == []
    && |l.records| == 1 && Describes(l.records[0], q, r) && l.records[0].error == error
    && l.inputTokens == 0 && l.outputTokens == 0
  }

  predicate IsParsed(q: Request) {
    q.upstream == "anthropic" || SpeaksOpenAI(q)
  }

  /** The body is no JSON text of the expected form, in one piece. */
  predicate Undecodable(d: Decoders, q: Request, r: Response) {
    && !r.isStream
    && (if q.upstream == "anthropic" then d.anthropicMessage(r.body).None? else d.openAIResponse(r.body).None?)
  }

  lemma FailureIsRecorded(d: Decoders, q: Request, r: Response)
    requires d.limit > 0 && IsParsed(q)
    ensures Undecodable(d, q, r) ==> OnlyRecorded(d, q, r, Some(BadJson))
    ensures r.isStream && Sse.HasLongLine(r.body, d.limit) ==> OnlyRecorded(d, q, r, Some(LineTooLong))
  {
    hide Sse.HasLongLine, Sse.ScanLines, IsNative, DeploymentID, Anthropic.Run, OpenAI.Run;
    Sse.TooLongIffLongLine(r.body, d.limit);
  }

  /** Responses of any other provider are only recorded, without an error. */
  lemma OthersAreRecorded(d: Decoders, q: Request, r: Response)
    requires q.upstream != "anthropic" && q.upstream != "openai" && q.upstream != "sap-ai-core"
    ensures OnlyRecorded(d, q, r, None)
  {
  }

  /** No model, for SAP AI Core neither in the answer nor on the path, and no content. */
  ghost predicate BlankAnswer(d: Decoders, q: Request, r: Response) {
    if q.upstream == "anthropic" then
      match AnthropicOutcome(d, r)
      case Failed(_) => false
      case Parsed(a) => a.model == "" && a.thinking == [] && a.text == [] && a.tools == []
    else
      match OpenAIOutcome(d, r)
      case Failed(_) => false
      case Parsed(o) => o.model == "" && o.text == [] && o.tools == [] && Unnamed(q)
  }

  ghost predicate Unnamed(q: Request) {
    q.upstream == "sap-ai-core" ==> forall i, j :: !Names(q.path, i, j)
  }

  lemma UnnamedIff(q: Request)
    requires q.upstream == "sap-ai-core"
    ensures Unnamed(q) <==> DeploymentID(q.path) == ""
  {
    hide Names, DeploymentID, FirstNamed;
    var i, j := DeploymentIDIsFirst(q.path);
    if DeploymentID(q.path) != "" {
      FirstIsNamed(q.path, DeploymentID(q.path), i, j);
    }
  }

  /** A response leaves no row if and only if its provider is another one, its body does not decode or
      scan, or its answer is blank. */
  lemma NoRowsIff(d: Decoders, q: Request, r: Response)
    requires d.limit > 0
    ensures Rows(d, q, r) == [] <==>
            if IsParsed(q) then
              Undecodable(d, q, r) || (r.isStream && Sse.HasLongLine(r.body, d.limit)) || BlankAnswer(d, q, r)
            else q.upstream == "sap-ai-core" ==> Unnamed(q)
  {
    hide Sse.HasLongLine, Sse.ScanLines, IsNative, DeploymentID, Unnamed, Anthropic.Run, OpenAI.Run, OpenAI.Finish;
    hide Anthropic.FullResult, OpenAI.FullResult;
    Sse.TooLongIffLongLine(r.body, d.limit);
    if q.upstream == "sap-ai-core" {
      UnnamedIff(q);
    } else {
      assert Unnamed(q) by { NotSap(q); }
    }
  }

  lemma NotSap(q: Request)
    requires q.upstream != "sap-ai-core"
    ensures Unnamed(q)
  {
  }
}
