/** From a captured response body to audit rows: event extraction per upstream, and the completion
    callback that routes rows, unprocessed records and token counts. */
module Handler {
  import opened Sequences
  import opened Llm
  import opened SapPath
  import Anthropic
  import OpenAI
  import Sse

  // ---------- rows ----------

  datatype AuditEvent = AuditEvent(sessionID: string, turnID: string, ts: int, agent: string, project: string,
                                   branch: string, direction: string, thinking: seq<string>,
                                   assistantText: seq<string>, toolName: string, toolInput: string,
                                   model: string, raw: string, user: string, team: string,
                                   resourceGroup: string, requestCaptured: bool,
                                   inputTokens: int, outputTokens: int,
                                   cacheReadTokens: int, cacheWriteTokens: int)

  datatype UnprocessedEvent = UnprocessedEvent(sessionID: string, turnID: string, ts: int, agent: string,
                                               project: string, branch: string, user: string, team: string,
                                               direction: string, method': string, path: string,
                                               statusCode: int, contentType: string, raw: string,
                                               error: Option<ParseError>)

  /** What the request left behind for its response. */
  datatype Request = Request(sessionID: string, turnID: string, agent: string, project: string,
                             branch: string, user: string, team: string, upstream: string,
                             method': string, path: string, resourceGroup: string)

  datatype Response = Response(body: string, isStream: bool, statusCode: int, contentType: string, ts: int)

  /** The JSON decoders and the line scanner's buffer size. */
  datatype Decoders = Decoders(anthropicMessage: string -> Option<Anthropic.Message>,
                               anthropicEvent: string -> Option<Anthropic.Event>,
                               openAIResponse: string -> Option<OpenAI.Response>,
                               openAIChunk: string -> Option<OpenAI.Chunk>,
                               limit: nat)

  // ---------- what a body means ----------

  /** The content of one turn, whichever provider it came from. */
  datatype Turn = Turn(thinking: seq<string>, text: seq<string>, tools: seq<ToolCall>,
                       model: string, resourceGroup: string, usage: TokenUsage)

  /** A turn, or no structured content: because parsing failed, or (None) because there is nothing
      to store. */
  datatype Meaning = Structured(turn: Turn) | Unstructured(error: Option<ParseError>)

  function AnthropicOutcome(d: Decoders, r: Response): Outcome<Anthropic.Result> {
    if r.isStream then Anthropic.StreamResult(r.body, d.limit, d.anthropicEvent)
    else match d.anthropicMessage(r.body)
         case None => Failed(BadJson)
         case Some(msg) => Parsed(Anthropic.FullResult(msg))
  }

  function OpenAIOutcome(d: Decoders, r: Response): Outcome<OpenAI.Result> {
    if r.isStream then OpenAI.StreamResult(r.body, d.limit, d.openAIChunk)
    else match d.openAIResponse(r.body)
         case None => Failed(BadJson)
         case Some(resp) => Parsed(OpenAI.FullResult(resp))
  }

  /** SAP AI Core speaks OpenAI's format; the deployment id takes the place of the model. Answers of
      its native API are not parsed. */
  function SapOutcome(d: Decoders, q: Request, r: Response): Outcome<OpenAI.Result> {
    var id := DeploymentID(q.path);
    if IsNative(q.path) then Parsed(OpenAI.Result([], [], id, NO_USAGE))
    else match OpenAIOutcome(d, r)
         case Failed(e) => Failed(e)
         case Parsed(o) => Parsed(o.(model := if id == "" then o.model else id))
  }

  function TurnOrNothing(t: Turn): Meaning {
    if t.model == "" && t.thinking == [] && t.text == [] && t.tools == [] then Unstructured(None)
    else Structured(t)
  }

  function MeaningOf(d: Decoders, q: Request, r: Response): Meaning {
    if q.upstream == "anthropic" then
      match AnthropicOutcome(d, r)
      case Failed(e) => Unstructured(Some(e))
      case Parsed(a) => TurnOrNothing(Turn(a.thinking, a.text, a.tools, a.model, "", a.usage))
    else if q.upstream == "openai" then
      match OpenAIOutcome(d, r)
      case Failed(e) => Unstructured(Some(e))
      case Parsed(o) => TurnOrNothing(Turn([], o.text, o.tools, o.model, "", o.usage))
    else if q.upstream == "sap-ai-core" then
      match SapOutcome(d, q, r)
      case Failed(e) => Unstructured(Some(e))
      case Parsed(o) => TurnOrNothing(Turn([], o.text, o.tools, o.model, q.resourceGroup, o.usage))
    else Unstructured(None)
  }

  // ---------- from a turn to rows ----------

  function BaseRow(q: Request, r: Response): AuditEvent {
    AuditEvent(q.sessionID, q.turnID, r.ts, q.agent, q.project, q.branch, "response", [], [], "", "",
               "", r.body, q.user, q.team, "", true, 0, 0, 0, 0)
  }

  function TurnRow(q: Request, r: Response, t: Turn): AuditEvent {
    BaseRow(q, r).(thinking := t.thinking, assistantText := t.text, model := t.model,
                   resourceGroup := t.resourceGroup,
                   inputTokens := t.usage.input, outputTokens := t.usage.output,
                   cacheReadTokens := t.usage.cacheRead, cacheWriteTokens := t.usage.cacheWrite)
  }

  /** One row per tool call, or a single row without a tool. */
  function RowsOf(base: AuditEvent, tools: seq<ToolCall>): seq<AuditEvent> {
    if tools == [] then [base]
    else seq(|tools|, i requires 0 <= i < |tools| => base.(toolName := tools[i].name, toolInput := tools[i].input))
  }

  function Rows(d: Decoders, q: Request, r: Response): seq<AuditEvent> {
    match MeaningOf(d, q, r)
    case Structured(t) => RowsOf(TurnRow(q, r, t), t.tools)
    case Unstructured(_) => []
  }

  function Record(q: Request, r: Response, error: Option<ParseError>): UnprocessedEvent {
    UnprocessedEvent(q.sessionID, q.turnID, r.ts, q.agent, q.project, q.branch, q.user, q.team, "response",
                     q.method', q.path, r.statusCode, r.contentType, r.body, error)
  }

  method BuildToolEvents(base: AuditEvent, tools: seq<ToolCall>) returns (events: seq<AuditEvent>)
    ensures events == RowsOf(base, tools)
  {
    if |tools| == 0 {
      return [base];
    }
    var rows := new AuditEvent[|tools|];
    for i := 0 to |tools|
      invariant forall j | 0 <= j < i :: rows[j] == base.(toolName := tools[j].name, toolInput := tools[j].input)
    {
      rows[i] := base.(toolName := tools[i].name, toolInput := tools[i].input);
    }
    events := rows[..];
  }

  /** nil events are None here. */
  datatype Extraction = Extraction(events: Option<seq<AuditEvent>>, error: Option<ParseError>)

  method ExtractEvents(d: Decoders, q: Request, r: Response) returns (out: Extraction)
    ensures out.events == (if MeaningOf(d, q, r).Structured? then Some(Rows(d, q, r)) else None)
    ensures MeaningOf(d, q, r).Unstructured? ==> out.error == MeaningOf(d, q, r).error
  {
    var base := AuditEvent(q.sessionID, q.turnID, r.ts, q.agent, q.project, q.branch, "response", [], [], "", "",
                           "", r.body, q.user, q.team, "", true, 0, 0, 0, 0);
    if q.upstream == "anthropic" {
      var parsed := ParseAnthropic(d, r);
      if parsed.Failed? {
        return Extraction(None, Some(parsed.error));
      }
      var a := parsed.result;
      if a.model == "" && a.thinking == [] && a.text == [] && a.tools == [] {
        return Extraction(None, None);
      }
      base := base.(thinking := a.thinking, assistantText := a.text, model := a.model);
      base := ApplyUsage(base, a.usage);
      var events := BuildToolEvents(base, a.tools);
      return Extraction(Some(events), None);
    } else if q.upstream == "openai" || q.upstream == "sap-ai-core" {
      var parsed := ParseOpenAIStyle(d, q, r);
      if parsed.Failed? {
        return Extraction(None, Some(parsed.error));
      }
      var o := parsed.result;
      if o.model == "" && o.text == [] && o.tools == [] {
        return Extraction(None, None);
      }
      base := base.(assistantText := o.text, model := o.model);
      if q.upstream == "sap-ai-core" {
        base := base.(resourceGroup := q.resourceGroup);
      }
      base := ApplyUsage(base, o.usage);
      var events := BuildToolEvents(base, o.tools);
      return Extraction(Some(events), None);
    }
    return Extraction(None, None);
  }

  method ApplyUsage(base: AuditEvent, usage: TokenUsage) returns (row: AuditEvent)
    ensures row == base.(inputTokens := usage.input, outputTokens := usage.output,
                         cacheReadTokens := usage.cacheRead, cacheWriteTokens := usage.cacheWrite)
  {
    row := base.(inputTokens := usage.input);
    row := row.(outputTokens := usage.output);
    row := row.(cacheReadTokens := usage.cacheRead);
    row := row.(cacheWriteTokens := usage.cacheWrite);
  }

  method ParseAnthropic(d: Decoders, r: Response) returns (out: Outcome<Anthropic.Result>)
    ensures out == AnthropicOutcome(d, r)
  {
    if r.isStream {
      out := Anthropic.ParseStream(r.body, d.limit, d.anthropicEvent);
    } else {
      out := Anthropic.ParseFull(r.body, d.anthropicMessage);
    }
  }

  method ParseOpenAIStyle(d: Decoders, q: Request, r: Response) returns (out: Outcome<OpenAI.Result>)
    ensures out == if q.upstream == "sap-ai-core" then SapOutcome(d, q, r) else OpenAIOutcome(d, r)
  {
    if q.upstream == "sap-ai-core" {
      out := ParseSAPAICore(d, q, r);
    } else {
      out := ParseOpenAI(d, r);
    }
  }

  method ParseSAPAICore(d: Decoders, q: Request, r: Response) returns (out: Outcome<OpenAI.Result>)
    ensures out == SapOutcome(d, q, r)
  {
    var result := OpenAI.Result([], [], DeploymentID(q.path), NO_USAGE);
    if IsNative(q.path) {
      return Parsed(result);
    }
    var parsed := ParseOpenAI(d, r);
    if parsed.Failed? {
      return parsed;
    }
    result := result.(text := parsed.result.text, tools := parsed.result.tools, usage := parsed.result.usage);
    if result.model == "" {
      result := result.(model := parsed.result.model);
    }
    out := Parsed(result);
  }

  method ParseOpenAI(d: Decoders, r: Response) returns (out: Outcome<OpenAI.Result>)
    ensures out == OpenAIOutcome(d, r)
  {
    if r.isStream {
      out := OpenAI.ParseStream(r.body, d.limit, d.openAIChunk);
    } else {
      out := OpenAI.ParseFull(r.body, d.openAIResponse);
    }
  }

  // ---------- the completion callback ----------

  /** Everything the callback has added so far: rows to the batcher, records to the unprocessed
      batcher, and the two token counters. */
  datatype Ledger = Ledger(rows: seq<AuditEvent>, records: seq<UnprocessedEvent>,
                           inputTokens: int, outputTokens: int)

  function Positive(n: int): nat {
    if n > 0 then n else 0
  }

  function Credit(l: Ledger, d: Decoders, q: Request, r: Response, keepsRecords: bool): Ledger {
    match MeaningOf(d, q, r)
    case Structured(t) =>
      Ledger(l.rows + Rows(d, q, r), l.records,
             l.inputTokens + Positive(t.usage.input), l.outputTokens + Positive(t.usage.output))
    case Unstructured(e) =>
      if keepsRecords then l.(records := l.records + [Record(q, r, e)]) else l
  }

  class AuditTransport {
    const decoders: Decoders
    // False when no unprocessed batcher is configured; such records are then discarded.
    const keepsRecords: bool
    var rows: seq<AuditEvent>
    var records: seq<UnprocessedEvent>
    var inputTokens: int
    var outputTokens: int

    constructor (decoders: Decoders, keepsRecords: bool)
      ensures View() == Ledger([], [], 0, 0)
      ensures this.decoders == decoders && this.keepsRecords == keepsRecords
    {
      this.decoders, this.keepsRecords := decoders, keepsRecords;
      rows, records, inputTokens, outputTokens := [], [], 0, 0;
    }

    function View(): Ledger
      reads this
    {
      Ledger(rows, records, inputTokens, outputTokens)
    }

    method OnComplete(q: Request, r: Response)
      modifies this
      ensures View() == Credit(old(View()), decoders, q, r, keepsRecords)
    {
      hide MeaningOf;
      var extraction := ExtractEvents(decoders, q, r);
      if extraction.events.Some? && |extraction.events.value| > 0 {
        var e := extraction.events.value[0];
        if e.inputTokens > 0 {
          inputTokens := inputTokens + e.inputTokens;
        }
        if e.outputTokens > 0 {
          outputTokens := outputTokens + e.outputTokens;
        }
      }
      if extraction.events.Some? {
        var events := extraction.events.value;
        ghost var before := rows;
        for i := 0 to |events|
          invariant rows == before + events[..i]
          invariant records == old(records)
          invariant inputTokens == old(inputTokens) + (if |events| > 0 then Positive(events[0].inputTokens) else 0)
          invariant outputTokens == old(outputTokens) + (if |events| > 0 then Positive(events[0].outputTokens) else 0)
        {
          rows := rows + [events[i]];
        }
        assert events[..|events|] == events;
      } else if keepsRecords {
        records := records + [UnprocessedEvent(q.sessionID, q.turnID, r.ts, q.agent, q.project, q.branch,
                                               q.user, q.team, "response", q.method', q.path,
                                               r.statusCode, r.contentType, r.body, extraction.error)];
      }
    }
  }

  // ---------- what holds of one response ----------

  /** The row says whose turn it is, as the request did. */
  ghost predicate Identifies(e: AuditEvent, q: Request, r: Response) {
    && e.sessionID == q.sessionID && e.turnID == q.turnID && e.ts == r.ts
    && e.agent == q.agent && e.project == q.project && e.branch == q.branch
    && e.user == q.user && e.team == q.team && e.direction == "response" && e.requestCaptured
  }

  /** A structured response gives at least one row; its rows carry the tool calls in order, and all
      share the identity, the body, the model, the texts and the usage. */
  lemma RowsCarryTurn(d: Decoders, q: Request, r: Response)
    requires MeaningOf(d, q, r).Structured?
    ensures var t := MeaningOf(d, q, r).turn;
            var rows := Rows(d, q, r);
            && |rows| == (if t.tools == [] then 1 else |t.tools|)
            && (forall i | 0 <= i < |rows| ::
                  && Identifies(rows[i], q, r) && rows[i].raw == r.body
                  && rows[i].model == t.model && rows[i].resourceGroup == t.resourceGroup
                  && rows[i].thinking == t.thinking && rows[i].assistantText == t.text
                  && TokenUsage(rows[i].inputTokens, rows[i].outputTokens,
                                rows[i].cacheReadTokens, rows[i].cacheWriteTokens) == t.usage
                  && ToolCall(rows[i].toolName, rows[i].toolInput)
                  == (if t.tools == [] then ToolCall("", "") else t.tools[i]))
  {
  }

  /** The record says everything about the exchange that there is. */
  ghost predicate Describes(rec: UnprocessedEvent, q: Request, r: Response) {
    && rec.sessionID == q.sessionID && rec.turnID == q.turnID && rec.ts == r.ts
    && rec.agent == q.agent && rec.project == q.project && rec.branch == q.branch
    && rec.user == q.user && rec.team == q.team && rec.direction == "response"
    && rec.method' == q.method' && rec.path == q.path
    && rec.statusCode == r.statusCode && rec.contentType == r.contentType && rec.raw == r.body
  }

  /** Each response yields one or more rows and no record, or no row and exactly one record that
      carries the body and the parse error. */
  lemma ResponsePartition(l: Ledger, d: Decoders, q: Request, r: Response)
    ensures var l' := Credit(l, d, q, r, true);
            || (&& |l'.rows| > |l.rows| && l.rows <= l'.rows && l'.records == l.records)
            || (&& l'.rows == l.rows && |l'.records| == |l.records| + 1 && l.records <= l'.records
                && Describes(l'.records[|l.records|], q, r)
                && MeaningOf(d, q, r) == Unstructured(l'.records[|l.records|].error)
                && l'.inputTokens == l.inputTokens && l'.outputTokens == l.outputTokens)
  {
  }

  /** The row on whose counts the counters go up: the first, and by what it says if that is positive. */
  lemma CreditCounts(l: Ledger, d: Decoders, q: Request, r: Response, keeps: bool)
    ensures var l', rows := Credit(l, d, q, r, keeps), Rows(d, q, r);
            && l'.rows == l.rows + rows
            && l'.inputTokens == l.inputTokens
                                 + (if rows != [] && rows[0].inputTokens > 0 then rows[0].inputTokens else 0)
            && l'.outputTokens == l.outputTokens
                                  + (if rows != [] && rows[0].outputTokens > 0 then rows[0].outputTokens else 0)
  {
    hide MeaningOf;
    if MeaningOf(d, q, r).Structured? {
      RowsCarryTurn(d, q, r);
    } else {
      assert l.rows + [] == l.rows;
    }
  }

  // ---------- what holds of any run of responses ----------

  datatype Exchange = Exchange(request: Request, response: Response)

  function Credits(d: Decoders, keeps: bool, xs: seq<Exchange>): Ledger {
    if xs == [] then Ledger([], [], 0, 0)
    else
      var x := xs[|xs| - 1];
      Credit(Credits(d, keeps, xs[..|xs| - 1]), d, x.request, x.response, keeps)
  }

  function Turns(d: Decoders, xs: seq<Exchange>): seq<Turn> {
    FilterMap((x: Exchange) => match MeaningOf(d, x.request, x.response)
                               case Structured(t) => Some(t)
                               case Unstructured(_) => None, xs)
  }

  function SumInput(ts: seq<Turn>): nat {
    if ts == [] then 0
    else SumInput(ts[..|ts| - 1]) + (if ts[|ts| - 1].usage.input > 0 then ts[|ts| - 1].usage.input else 0)
  }

  function SumOutput(ts: seq<Turn>): nat {
    if ts == [] then 0
    else SumOutput(ts[..|ts| - 1]) + (if ts[|ts| - 1].usage.output > 0 then ts[|ts| - 1].usage.output else 0)
  }

  function RowCount(ts: seq<Turn>): nat {
    if ts == [] then 0
    else RowCount(ts[..|ts| - 1]) + (if ts[|ts| - 1].tools == [] then 1 else |ts[|ts| - 1].tools|)
  }

  /** The tool calls of all turns, in order. */
  function ToolCalls(ts: seq<Turn>): seq<ToolCall> {
    if ts == [] then [] else ToolCalls(ts[..|ts| - 1]) + ts[|ts| - 1].tools
  }

  /** A row without tool input stands for a turn without tool calls. */
  function RecordedCall(e: AuditEvent): Option<ToolCall> {
    if e.toolInput == "" then None else Some(ToolCall(e.toolName, e.toolInput))
  }

  lemma TurnsSnoc(d: Decoders, xs: seq<Exchange>, x: Exchange)
    ensures Turns(d, xs + [x]) ==
            match MeaningOf(d, x.request, x.response)
            case Structured(t) => Turns(d, xs) + [t]
            case Unstructured(_) => Turns(d, xs)
  {
    FilterMapSnoc((x: Exchange) => match MeaningOf(d, x.request, x.response)
                                   case Structured(t) => Some(t)
                                   case Unstructured(_) => None, xs, x);
  }

  lemma CreditSizes(l: Ledger, d: Decoders, q: Request, r: Response, keeps: bool)
    ensures var l' := Credit(l, d, q, r, keeps);
            match MeaningOf(d, q, r)
            case Structured(t) =>
              && l'.inputTokens == l.inputTokens + (if t.usage.input > 0 then t.usage.input else 0)
              && l'.outputTokens == l.outputTokens + (if t.usage.output > 0 then t.usage.output else 0)
              && |l'.rows| == |l.rows| + (if t.tools == [] then 1 else |t.tools|) && |l'.records| == |l.records|
            case Unstructured(_) =>
              && l'.inputTokens == l.inputTokens && l'.outputTokens == l.outputTokens && l'.rows == l.rows
              && |l'.records| == |l.records| + (if keeps then 1 else 0)
  {
    hide MeaningOf;
  }

  lemma TurnAdds(ts: seq<Turn>, t: Turn)
    ensures SumInput(ts + [t]) == SumInput(ts) + (if t.usage.input > 0 then t.usage.input else 0)
    ensures SumOutput(ts + [t]) == SumOutput(ts) + (if t.usage.output > 0 then t.usage.output else 0)
    ensures RowCount(ts + [t]) == RowCount(ts) + (if t.tools == [] then 1 else |t.tools|)
  {
    assert (ts + [t])[..|ts|] == ts;
  }

  lemma NoTurns(d: Decoders)
    ensures Turns(d, []) == [] && SumInput([]) == 0 && SumOutput([]) == 0 && RowCount([]) == 0
  {
    hide MeaningOf;
  }

  /** Tokens are counted once per structured turn, however many tool calls and rows it has; each
      response is either a turn or a record; and the rows number what the turns require. */
  lemma {:induction false} TokensConserved(d: Decoders, keeps: bool, xs: seq<Exchange>)
    ensures var l := Credits(d, keeps, xs);
            && l.inputTokens == SumInput(Turns(d, xs))
            && l.outputTokens == SumOutput(Turns(d, xs))
            && (keeps ==> |Turns(d, xs)| + |l.records| == |xs|)
            && |l.rows| == RowCount(Turns(d, xs))
  {
    hide MeaningOf, Turns, SumInput, SumOutput, RowCount, Credit;
    if xs != [] {
      var front, x := xs[..|xs| - 1], xs[|xs| - 1];
      assert xs == front + [x];
      TokensConserved(d, keeps, front);
      TurnsSnoc(d, front, x);
      CreditSizes(Credits(d, keeps, front), d, x.request, x.response, keeps);
      if MeaningOf(d, x.request, x.response).Structured? {
        var t := MeaningOf(d, x.request, x.response).turn;
        TurnAdds(Turns(d, front), t);
      }
    } else {
      NoTurns(d);
    }
  }

  function RecordsOf(d: Decoders, xs: seq<Exchange>): seq<UnprocessedEvent> {
    FilterMap((x: Exchange) => match MeaningOf(d, x.request, x.response)
                               case Structured(_) => None
                               case Unstructured(e) => Some(Record(x.request, x.response, e)), xs)
  }

  function RowsOfAll(d: Decoders, xs: seq<Exchange>): seq<AuditEvent> {
    if xs == [] then []
    else RowsOfAll(d, xs[..|xs| - 1]) + Rows(d, xs[|xs| - 1].request, xs[|xs| - 1].response)
  }

  lemma NoRowsWithoutTurn(d: Decoders, q: Request, r: Response)
    requires MeaningOf(d, q, r).Unstructured?
    ensures Rows(d, q, r) == []
  {
    hide MeaningOf;
  }

  lemma RecordsSnoc(d: Decoders, xs: seq<Exchange>, x: Exchange)
    ensures RecordsOf(d, xs + [x]) ==
            match MeaningOf(d, x.request, x.response)
            case Structured(_) => RecordsOf(d, xs)
            case Unstructured(e) => RecordsOf(d, xs) + [Record(x.request, x.response, e)]
  {
    FilterMapSnoc((x: Exchange) => match MeaningOf(d, x.request, x.response)
                                   case Structured(_) => None
                                   case Unstructured(e) => Some(Record(x.request, x.response, e)), xs, x);
  }

  lemma NoRecords(d: Decoders)
    ensures RecordsOf(d, []) == []
  {
    hide MeaningOf;
  }

  /** After any run, the records are those of the unstructured responses, each with its own body and
      error, in order, or none at all when they are not kept; and the rows are those of all responses
      one after another, where an unstructured response has none. */
  lemma {:induction false} LedgerOfRun(d: Decoders, keeps: bool, xs: seq<Exchange>)
    ensures Credits(d, keeps, xs).records == if keeps then RecordsOf(d, xs) else []
    ensures Credits(d, keeps, xs).rows == RowsOfAll(d, xs)
  {
    hide MeaningOf, RecordsOf, Rows;
    if xs != [] {
      var front, x := xs[..|xs| - 1], xs[|xs| - 1];
      assert xs == front + [x];
      LedgerOfRun(d, keeps, front);
      RecordsSnoc(d, front, x);
      if MeaningOf(d, x.request, x.response).Unstructured? {
        NoRowsWithoutTurn(d, x.request, x.response);
        assert RowsOfAll(d, front) + [] == RowsOfAll(d, front);
      }
    } else {
      NoRecords(d);
    }
  }

  // ---------- the tool calls in the store are the tool calls of the turns ----------

  ghost predicate HasInputs(tools: seq<ToolCall>) {
    forall i | 0 <= i < |tools| :: tools[i].input != ""
  }

  lemma {:induction false} AnthropicFullHasInputs(r: Anthropic.Result, cs: seq<Anthropic.Content>)
    requires HasInputs(r.tools)
    ensures HasInputs(Anthropic.AddContents(r, cs).tools)
  {
    if cs != [] {
      AnthropicFullHasInputs(r, cs[..|cs| - 1]);
    }
  }

  lemma {:induction false} AnthropicStreamHasInputs(evs: seq<Anthropic.Event>)
    ensures HasInputs(Anthropic.Run(evs).result.tools)
  {
    if evs != [] {
      AnthropicStreamHasInputs(evs[..|evs| - 1]);
    }
  }

  lemma {:induction false} CallsHaveInputs(fs: seq<OpenAI.Function>)
    ensures HasInputs(OpenAI.CallsOf(fs))
  {
    if fs != [] {
      CallsHaveInputs(fs[..|fs| - 1]);
    }
  }

  lemma {:induction false} OpenAIFullHasInputs(cs: seq<OpenAI.Choice>)
    ensures HasInputs(OpenAI.AllCallsOf(cs))
  {
    if cs != [] {
      OpenAIFullHasInputs(cs[..|cs| - 1]);
      CallsHaveInputs(cs[|cs| - 1].toolCalls);
    }
  }

  lemma {:induction false} OpenAIStreamHasInputs(m: map<int, OpenAI.Fragment>, n: nat)
    ensures HasInputs(OpenAI.EmittedBelow(m, n))
  {
    if n > 0 {
      OpenAIStreamHasInputs(m, n - 1);
    }
  }

  /** No parser yields a tool call with an empty input. */
  lemma TurnHasInputs(d: Decoders, q: Request, r: Response)
    requires MeaningOf(d, q, r).Structured?
    ensures HasInputs(MeaningOf(d, q, r).turn.tools)
  {
    hide HasInputs, IsNative, DeploymentID, Anthropic.Run, Anthropic.AddContents;
    hide OpenAI.EmittedBelow, OpenAI.AllCallsOf, OpenAI.Run;
    if q.upstream == "anthropic" {
      if r.isStream {
        AnthropicStreamHasInputs(Sse.Decoded(Sse.ScanLines(r.body, d.limit).lines, d.anthropicEvent));
      } else {
        var msg := d.anthropicMessage(r.body).value;
        NoToolsHaveInputs();
        AnthropicFullHasInputs(Anthropic.HeadResult(msg), msg.content);
      }
    } else if q.upstream == "sap-ai-core" && IsNative(q.path) {
      NoToolsHaveInputs();
    } else if r.isStream {
      var s := OpenAI.Run(Sse.Decoded(Sse.ScanLines(r.body, d.limit).lines, d.openAIChunk));
      OpenAIStreamHasInputs(s.fragments, |s.fragments|);
    } else {
      OpenAIFullHasInputs(d.openAIResponse(r.body).value.choices);
    }
  }

  lemma NoToolsHaveInputs()
    ensures HasInputs([])
  {
  }

  lemma RecordedByTurn(base: AuditEvent, tools: seq<ToolCall>)
    requires base.toolInput == "" && HasInputs(tools)
    ensures FilterMap(RecordedCall, RowsOf(base, tools)) == tools
  {
    if tools == [] {
      FilterMapSnoc(RecordedCall, [], base);
      assert [] + [base] == [base];
    } else {
      FilterMapAll(RecordedCall, RowsOf(base, tools), tools);
    }
  }

  /** Over any run of responses, the tool calls recorded in the rows are the tool calls of all
      turns, in order: none is lost, repeated or attributed to an unparsed response. */
  lemma {:induction false} ToolCallsConserved(d: Decoders, keeps: bool, xs: seq<Exchange>)
    ensures FilterMap(RecordedCall, Credits(d, keeps, xs).rows) == ToolCalls(Turns(d, xs))
  {
    hide MeaningOf;
    if xs != [] {
      hide Turns, RecordedCall, RowsOf, HasInputs;
      var front, x := xs[..|xs| - 1], xs[|xs| - 1];
      assert xs == front + [x];
      ToolCallsConserved(d, keeps, front);
      TurnsSnoc(d, front, x);
      if MeaningOf(d, x.request, x.response).Structured? {
        var t := MeaningOf(d, x.request, x.response).turn;
        TurnHasInputs(d, x.request, x.response);
        RecordedByTurn(TurnRow(x.request, x.response, t), t.tools);
        FilterMapAppend(RecordedCall, Credits(d, keeps, front).rows, Rows(d, x.request, x.response));
        assert (Turns(d, front) + [t])[..|Turns(d, front)|] == Turns(d, front);
      }
    } else {
      NoTurns(d);
    }
  }
}
