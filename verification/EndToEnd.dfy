/** From upstream bytes to stored rows: a streamed response, however it is cut up and however its
    tap is scheduled, is audited as the same response sent in one piece. */
module EndToEnd {
  import opened Sequences
  import opened Llm
  import opened Handler
  import Sse
  import Tap
  import Batching
  import Anthropic
  import AnthropicReassembly
  import OpenAI
  import OpenAIReassembly
  import OpenAIChoices
  import AnthropicStopOrder
  import AnthropicTruncation
  import SapPath
  import AnthropicMeaning
  import HandlerMeaning

  /** The consumer read the body to its end and closed it, and the audit goroutine has finished. */
  ghost predicate Tapped(body: string, schedule: seq<Tap.Step>) {
    && Tap.ValidRun(Tap.Initial(body), schedule)
    && var s := Tap.After(Tap.Initial(body), schedule);
       s.remaining == "" && s.completed != []
  }

  /** What the completion callback is given. */
  function Audited(body: string, schedule: seq<Tap.Step>, contentType: string, statusCode: int, ts: int): Response
    requires Tapped(body, schedule)
  {
    Response(Tap.After(Tap.Initial(body), schedule).completed[0], Tap.IsStream(contentType),
             statusCode, contentType, ts)
  }

  lemma AuditedBody(body: string, schedule: seq<Tap.Step>, contentType: string, statusCode: int, ts: int)
    requires Tapped(body, schedule)
    ensures Audited(body, schedule, contentType, statusCode, ts).body == body
  {
    Tap.TapIsFaithful(body, schedule);
  }

  // ---------- the bytes of a stream ----------

  function EventsIn(d: Decoders, body: string): seq<Anthropic.Event> {
    Sse.Decoded(Sse.ScanLines(body, d.limit).lines, d.anthropicEvent)
  }

  function ChunksIn(d: Decoders, body: string): seq<OpenAI.Chunk> {
    Sse.Decoded(Sse.ScanLines(body, d.limit).lines, d.openAIChunk)
  }

  /** What a printed stream holds, whatever comes after it: the events on its data lines, less those
      that are empty, the end marker or no event. */
  lemma PrintedStream<E>(frames: seq<Sse.Frame>, eol: string, tail: string, limit: nat, decode: string -> Option<E>)
    requires Sse.IsEol(eol) && forall f | f in frames :: Sse.FrameFits(f, eol, limit)
    ensures var s, t := Sse.ScanLines(Sse.Print(frames, eol) + tail, limit), Sse.ScanLines(tail, limit);
            && s.tooLong == t.tooLong
            && Sse.Decoded(s.lines, decode)
            == FilterMap(decode, FilterMap(Sse.Keep, Sse.DataOf(frames))) + Sse.Decoded(t.lines, decode)
  {
    hide Sse.Print, Sse.ScanLines, Sse.FrameFits, Sse.DataOf, Sse.Keep;
    Sse.PrintThenScan(frames, eol, tail, limit);
    FilterMapAppend(decode, FilterMap(Sse.Keep, Sse.DataOf(frames)),
                    Sse.Payloads(Sse.ScanLines(tail, limit).lines));
  }

  /** The line that ends an OpenAI stream. */
  function EndMarker(eol: string): string {
    "data: [DONE]" + eol
  }

  lemma EndMarkerIsEmpty(eol: string, limit: nat)
    requires Sse.IsEol(eol) && |EndMarker(eol)| <= limit
    ensures var s := Sse.ScanLines(EndMarker(eol), limit);
            !s.tooLong && Sse.Payloads(s.lines) == []
  {
    hide Sse.ScanLines, Sse.PayloadOf;
    var line := Sse.DATA_PREFIX + Sse.DONE;
    assert line == "data: [DONE]";
    assert EndMarker(eol) == line + eol + "";
    Sse.ScanOneLine(EndMarker(eol), line, eol, "", limit);
    Sse.ScanNothing(limit);
    Sse.PayloadOfDataLine(Sse.DONE);
    FilterMapSnoc(Sse.PayloadOf, [], line);
    assert [line] + [] == [line] == [] + [line];
  }

  /** A printed OpenAI stream with its closing "data: [DONE]" holds the events printed. */
  lemma EndedStream<E>(frames: seq<Sse.Frame>, eol: string, limit: nat, decode: string -> Option<E>)
    requires Sse.IsEol(eol) && forall f | f in frames :: Sse.FrameFits(f, eol, limit)
    requires forall i | 0 <= i < |frames| :: frames[i].data != "" && frames[i].data != Sse.DONE
    requires |EndMarker(eol)| <= limit
    ensures var s := Sse.ScanLines(Sse.Print(frames, eol) + EndMarker(eol), limit);
            !s.tooLong && Sse.Decoded(s.lines, decode) == FilterMap(decode, Sse.DataOf(frames))
  {
    hide Sse.Print, Sse.ScanLines, Sse.FrameFits, Sse.DataOf, Sse.IsEol, EndMarker;
    PrintedStream(frames, eol, EndMarker(eol), limit, decode);
    EndMarkerIsEmpty(eol, limit);
    Sse.KeepAll(Sse.DataOf(frames));
  }

  // ---------- a stream and the same message in one piece ----------

  /** The events carry the message: each block whole, closed in the order of the content or, with the
      indices of the content, in an order that keeps each kind's own. */
  ghost predicate CarriesMessage(evs: seq<Anthropic.Event>, msg: Anthropic.Message) {
    && AnthropicReassembly.CarriesMeta(AnthropicReassembly.Meta(evs), msg)
    && (|| AnthropicReassembly.CarriesContent(evs, msg.content)
        || (&& AnthropicStopOrder.CarriesByIndex(evs, msg.content)
            && AnthropicStopOrder.OrderedWithinKinds(msg.content, AnthropicReassembly.Stops(evs))))
  }

  lemma AnthropicStreamMeans(d: Decoders, q: Request, streamed: Response, full: Response)
    requires q.upstream == "anthropic"
    requires streamed.isStream && !Sse.ScanLines(streamed.body, d.limit).tooLong
    requires !full.isStream && d.anthropicMessage(full.body).Some?
    requires CarriesMessage(EventsIn(d, streamed.body), d.anthropicMessage(full.body).value)
    ensures MeaningOf(d, q, streamed) == MeaningOf(d, q, full)
  {
    hide Sse.ScanLines, Sse.Decoded, Anthropic.Run, Anthropic.FullResult;
    hide AnthropicReassembly.CarriesContent, AnthropicReassembly.CarriesMeta, AnthropicReassembly.Meta;
    hide AnthropicStopOrder.CarriesByIndex, AnthropicStopOrder.OrderedWithinKinds;
    var msg, evs := d.anthropicMessage(full.body).value, EventsIn(d, streamed.body);
    if AnthropicReassembly.CarriesContent(evs, msg.content) {
      AnthropicReassembly.StreamEqualsFull(evs, msg);
    } else {
      AnthropicStopOrder.OrderWithinKindsSuffices(evs, msg);
    }
  }

  /** When the blocks close in any order, the two mean the same if and only if the stream's metadata
      are the message's and each kind's payloads come in the message's order. */
  lemma AnthropicStreamMeansIff(d: Decoders, q: Request, streamed: Response, full: Response)
    requires q.upstream == "anthropic"
    requires streamed.isStream && !Sse.ScanLines(streamed.body, d.limit).tooLong
    requires !full.isStream && d.anthropicMessage(full.body).Some?
    requires var msg, evs := d.anthropicMessage(full.body).value, EventsIn(d, streamed.body);
             AnthropicStopOrder.CarriesByIndex(evs, msg.content)
    requires MeaningOf(d, q, full).Structured?
    ensures var msg, evs := d.anthropicMessage(full.body).value, EventsIn(d, streamed.body);
            var stopped := AnthropicStopOrder.Reordered(msg.content, AnthropicReassembly.Stops(evs));
            MeaningOf(d, q, streamed) == MeaningOf(d, q, full) <==>
              && AnthropicReassembly.CarriesMeta(AnthropicReassembly.Meta(evs), msg)
              && AnthropicStopOrder.SameShown(stopped, msg.content)
  {
    hide Sse.ScanLines, Sse.Decoded, Anthropic.Run, Anthropic.FullResult;
    hide AnthropicReassembly.CarriesMeta, AnthropicReassembly.Meta, AnthropicReassembly.Stops;
    hide AnthropicStopOrder.CarriesByIndex, AnthropicStopOrder.SameShown;
    AnthropicStopOrder.StopOrderAgreesIff(EventsIn(d, streamed.body), d.anthropicMessage(full.body).value);
  }

  /** The stream's chunks carry the response: each delta belongs to one of its choices and each
      choice's own deltas deliver it. */
  ghost predicate CarriesResponse(chunks: seq<OpenAI.Chunk>, tagged: seq<OpenAIChoices.TaggedChunk>,
                                  resp: OpenAI.Response) {
    chunks == OpenAIChoices.UntagAll(tagged) && OpenAIChoices.CarriesEach(tagged, resp.choices)
  }

  /** The path names the deployment, which then stands in for the model. */
  predicate NamesModel(q: Request) {
    q.upstream == "sap-ai-core" && SapPath.DeploymentID(q.path) != ""
  }

  /** At most one choice has text, at most one has calls, and model and usage are the response's. */
  ghost predicate OneVoice(q: Request, chunks: seq<OpenAI.Chunk>, resp: OpenAI.Response) {
    && OpenAIChoices.WithContent(resp.choices) <= 1 && OpenAIChoices.WithCalls(resp.choices) <= 1
    && (NamesModel(q) || OpenAIReassembly.FirstModel(chunks) == resp.model)
    && OpenAIReassembly.Counts(OpenAIReassembly.LastUsage(chunks)) == OpenAIReassembly.Counts(resp.usage)
  }

  /** For a response with any number of choices, whose deltas interleave freely: the two mean the
      same if it speaks with one voice, and, where the answer is parsed and has content, only if. */
  lemma OpenAIStreamMeans(d: Decoders, q: Request, tagged: seq<OpenAIChoices.TaggedChunk>,
                          streamed: Response, full: Response)
    requires q.upstream == "openai" || q.upstream == "sap-ai-core"
    requires streamed.isStream && !Sse.ScanLines(streamed.body, d.limit).tooLong
    requires !full.isStream && d.openAIResponse(full.body).Some?
    requires CarriesResponse(ChunksIn(d, streamed.body), tagged, d.openAIResponse(full.body).value)
    ensures var agrees := OneVoice(q, ChunksIn(d, streamed.body), d.openAIResponse(full.body).value);
            && (agrees ==> MeaningOf(d, q, streamed) == MeaningOf(d, q, full))
            && (MeaningOf(d, q, full).Structured? && !(q.upstream == "sap-ai-core" && SapPath.IsNative(q.path)) ==>
                  (MeaningOf(d, q, streamed) == MeaningOf(d, q, full) <==> agrees))
  {
    hide Sse.ScanLines, Sse.Decoded, SapPath.DeploymentID, SapPath.IsNative, OpenAI.Run;
    hide OpenAI.TextsOf, OpenAI.AllCallsOf, OpenAI.EmittedBelow, OpenAI.AddFragments;
    hide OpenAIReassembly.FirstModel, OpenAIReassembly.LastUsage;
    hide OpenAIReassembly.AllText, OpenAIReassembly.AllTools;
    hide OpenAIChoices.UntagAll, OpenAIChoices.CarriesEach, OpenAIChoices.WithContent, OpenAIChoices.WithCalls;
    var chunks, resp := ChunksIn(d, streamed.body), d.openAIResponse(full.body).value;
    OpenAIReassembly.RunSummary(chunks);
    OpenAIChoices.AgreeIff(tagged, resp);
  }

  // ---------- rows ----------

  /** A row without the two fields in which the same answer may differ: its raw body and its time. */
  function Essence(row: AuditEvent): AuditEvent {
    row.(raw := "", ts := 0)
  }

  function Essences(rows: seq<AuditEvent>): seq<AuditEvent> {
    seq(|rows|, i requires 0 <= i < |rows| => Essence(rows[i]))
  }

  lemma SameMeaningSameRows(d: Decoders, q: Request, a: Response, b: Response)
    requires MeaningOf(d, q, a) == MeaningOf(d, q, b)
    ensures Essences(Rows(d, q, a)) == Essences(Rows(d, q, b))
  {
    hide MeaningOf;
  }

  /** What the audit gains from one response: its rows and its token counts. */
  ghost predicate SameAudit(d: Decoders, q: Request, a: Response, b: Response) {
    var none := Ledger([], [], 0, 0);
    var la, lb := Credit(none, d, q, a, true), Credit(none, d, q, b, true);
    && Essences(la.rows) == Essences(lb.rows)
    && la.inputTokens == lb.inputTokens && la.outputTokens == lb.outputTokens
    && |la.records| == |lb.records|
  }

  lemma SameMeaningSameAudit(d: Decoders, q: Request, a: Response, b: Response)
    requires MeaningOf(d, q, a) == MeaningOf(d, q, b)
    ensures SameAudit(d, q, a, b)
  {
    hide MeaningOf, Rows, Essences;
    SameMeaningSameRows(d, q, a, b);
    assert [] + Rows(d, q, a) == Rows(d, q, a) && [] + Rows(d, q, b) == Rows(d, q, b);
  }

  /** For any Anthropic message, any stream that carries it, whatever its fragmentation, interleaving
      and other lines, and any schedule of reads and pipe transfers on either side, the streamed
      response is audited as the message sent in one piece: the same rows, apart from raw body and
      time, and the same token counts. */
  lemma AnthropicEndToEnd(d: Decoders, q: Request, body: string, fullBody: string,
                          streamTap: seq<Tap.Step>, fullTap: seq<Tap.Step>,
                          streamType: string, fullType: string, statusCode: int, t1: int, t2: int)
    requires q.upstream == "anthropic"
    requires !Sse.ScanLines(body, d.limit).tooLong && d.anthropicMessage(fullBody).Some?
    requires CarriesMessage(EventsIn(d, body), d.anthropicMessage(fullBody).value)
    requires Tapped(body, streamTap) && Tapped(fullBody, fullTap)
    requires Tap.IsStream(streamType) && !Tap.IsStream(fullType)
    ensures MeaningOf(d, q, Audited(body, streamTap, streamType, statusCode, t1))
         == MeaningOf(d, q, Audited(fullBody, fullTap, fullType, statusCode, t2))
    ensures SameAudit(d, q, Audited(body, streamTap, streamType, statusCode, t1),
                      Audited(fullBody, fullTap, fullType, statusCode, t2))
  {
    hide MeaningOf, SameAudit, CarriesMessage, EventsIn, Tap.IsStream, Sse.ScanLines, Tapped, Audited;
    var streamed := Audited(body, streamTap, streamType, statusCode, t1);
    var full := Audited(fullBody, fullTap, fullType, statusCode, t2);
    AuditedBody(body, streamTap, streamType, statusCode, t1);
    AuditedBody(fullBody, fullTap, fullType, statusCode, t2);
    AuditedKind(body, streamTap, streamType, statusCode, t1);
    AuditedKind(fullBody, fullTap, fullType, statusCode, t2);
    AnthropicStreamMeans(d, q, streamed, full);
    SameMeaningSameAudit(d, q, streamed, full);
  }

  lemma AuditedKind(body: string, schedule: seq<Tap.Step>, contentType: string, statusCode: int, ts: int)
    requires Tapped(body, schedule)
    ensures Audited(body, schedule, contentType, statusCode, ts).isStream == Tap.IsStream(contentType)
  {
  }

  /** The same for an OpenAI response that speaks with one voice, or one from SAP AI Core. */
  lemma OpenAIEndToEnd(d: Decoders, q: Request, body: string, fullBody: string,
                       tagged: seq<OpenAIChoices.TaggedChunk>,
                       streamTap: seq<Tap.Step>, fullTap: seq<Tap.Step>,
                       streamType: string, fullType: string, statusCode: int, t1: int, t2: int)
    requires q.upstream == "openai" || q.upstream == "sap-ai-core"
    requires !Sse.ScanLines(body, d.limit).tooLong && d.openAIResponse(fullBody).Some?
    requires CarriesResponse(ChunksIn(d, body), tagged, d.openAIResponse(fullBody).value)
    requires OneVoice(q, ChunksIn(d, body), d.openAIResponse(fullBody).value)
    requires Tapped(body, streamTap) && Tapped(fullBody, fullTap)
    requires Tap.IsStream(streamType) && !Tap.IsStream(fullType)
    ensures MeaningOf(d, q, Audited(body, streamTap, streamType, statusCode, t1))
         == MeaningOf(d, q, Audited(fullBody, fullTap, fullType, statusCode, t2))
    ensures SameAudit(d, q, Audited(body, streamTap, streamType, statusCode, t1),
                      Audited(fullBody, fullTap, fullType, statusCode, t2))
  {
    hide MeaningOf, SameAudit, CarriesResponse, OneVoice, ChunksIn, Tap.IsStream, Sse.ScanLines, Tapped, Audited;
    var streamed := Audited(body, streamTap, streamType, statusCode, t1);
    var full := Audited(fullBody, fullTap, fullType, statusCode, t2);
    AuditedBody(body, streamTap, streamType, statusCode, t1);
    AuditedBody(fullBody, fullTap, fullType, statusCode, t2);
    AuditedKind(body, streamTap, streamType, statusCode, t1);
    AuditedKind(fullBody, fullTap, fullType, statusCode, t2);
    OpenAIStreamMeans(d, q, tagged, streamed, full);
    SameMeaningSameAudit(d, q, streamed, full);
  }

  /** A consumer that goes away early: the callback gets the bytes read until then, wherever that cut
      the stream, and makes of them a result whose lists are prefixes of the whole answer's. */
  lemma AnthropicClosedEarly(d: Decoders, body: string, schedule: seq<Tap.Step>, streamed: Response, whole: Response)
    requires Tap.ValidRun(Tap.Initial(body), schedule)
    requires var s := Tap.After(Tap.Initial(body), schedule);
             s.completed != [] && streamed.body == s.completed[0]
    requires streamed.isStream && whole.isStream && whole.body == body
    requires !Sse.ScanLines(body, d.limit).tooLong
    requires AnthropicTruncation.RejectsCut(Sse.ScanLines(body, d.limit).lines, d.anthropicEvent)
    ensures streamed.body == Tap.After(Tap.Initial(body), schedule).delivered && streamed.body <= body
    ensures var a, b := AnthropicOutcome(d, streamed), AnthropicOutcome(d, whole);
            a.Parsed? && b.Parsed? && AnthropicReassembly.Extends(a.result, b.result)
  {
    hide Anthropic.StreamResult, AnthropicReassembly.Extends, AnthropicTruncation.RejectsCut, Sse.ScanLines;
    Tap.TapIsFaithful(body, schedule);
    assert streamed.body == body[..|streamed.body|];
    AnthropicTruncation.TruncatedBody(body, |streamed.body|, d.limit, d.anthropicEvent);
  }

  // ---------- on to the store ----------

  type Schedule = seq<Batching.Step<AuditEvent>>

  /** The rows of one response among others. */
  function Own(turnID: string, rows: seq<AuditEvent>): seq<AuditEvent> {
    FilterMap((e: AuditEvent) => if e.turnID == turnID && e.direction == "response" then Some(e) else None, rows)
  }

  /** A schedule of the shared batcher that feeds it, among any other rows, the given ones for one
      turn's response, drops none, then stops it, and whose writes all succeed. Everything else about
      the schedule is free. */
  ghost predicate Batched(cfg: Batching.Config, turnID: string, rows: seq<AuditEvent>,
                          before: Schedule, after: Schedule)
  {
    && cfg.size >= 1 && Batching.Writes(before, true) && Batching.Writes(after, true)
    && Batching.ValidRun(cfg, Batching.Initial(), before) && Own(turnID, Batching.Added(before)) == rows
    && var s := Batching.After(cfg, Batching.Initial(), before);
       && s.phase.Running? && s.stopped
       && Batching.ValidRun(cfg, s, after) && Batching.Added(after) == []
       && var t := Batching.After(cfg, s, after);
          t.phase.Finished? && t.dropped == 0
  }

  /** The turn's response in the store. */
  function StoredRows(cfg: Batching.Config, turnID: string, before: Schedule, after: Schedule): seq<AuditEvent>
    requires Batching.ValidRun(cfg, Batching.Initial(), before)
    requires Batching.ValidRun(cfg, Batching.After(cfg, Batching.Initial(), before), after)
  {
    var end := Batching.After(cfg, Batching.After(cfg, Batching.Initial(), before), after);
    Own(turnID, Batching.Stored(end.flushes))
  }

  lemma StoresOwnRows(cfg: Batching.Config, turnID: string, rows: seq<AuditEvent>, before: Schedule, after: Schedule)
    requires Batched(cfg, turnID, rows, before, after)
    ensures StoredRows(cfg, turnID, before, after) == rows
  {
    hide Own;
    Batching.EverythingStored(cfg, before, after, true);
  }

  /** From bytes to store: whatever message is streamed, in whatever pieces, read in whatever chunks,
      and written in whatever batches, the store ends up with the rows of its blocks. */
  lemma AnthropicStreamIsStored(d: Decoders, q: Request, body: string, sent: seq<AnthropicMeaning.Sent>,
                                tap: seq<Tap.Step>, contentType: string, statusCode: int, ts: int,
                                cfg: Batching.Config, before: Schedule, after: Schedule) returns (t: Turn)
    requires q.upstream == "anthropic" && !Sse.ScanLines(body, d.limit).tooLong
    requires AnthropicMeaning.StreamSends(EventsIn(d, body), sent)
    requires Tapped(body, tap) && Tap.IsStream(contentType)
    requires Batched(cfg, q.turnID, Rows(d, q, Audited(body, tap, contentType, statusCode, ts)), before, after)
    ensures t.thinking == FilterMap(AnthropicMeaning.SentThought, sent)
    ensures t.text == FilterMap(AnthropicMeaning.SentText, sent)
    ensures t.tools == FilterMap(AnthropicMeaning.SentCall, sent)
    ensures AnthropicMeaning.StreamMeta(EventsIn(d, body), t.model, t.usage) && t.resourceGroup == ""
    ensures HandlerMeaning.RowsAre(StoredRows(cfg, q.turnID, before, after), t)
  {
    hide Rows, FilterMap, AnthropicMeaning.StreamSends, AnthropicMeaning.StreamMeta, Tapped, Batched, Own;
    hide HandlerMeaning.RowsAre, Sse.ScanLines, Sse.Decoded, Tap.IsStream, Audited, StoredRows;
    var r := Audited(body, tap, contentType, statusCode, ts);
    AuditedBody(body, tap, contentType, statusCode, ts);
    AuditedKind(body, tap, contentType, statusCode, ts);
    t := HandlerMeaning.AnthropicStreamRows(d, q, r, sent);
    StoresOwnRows(cfg, q.turnID, Rows(d, q, r), before, after);
  }

  /** Two responses of one meaning leave the same rows in the store, whatever else their batchers
      carry and whatever their sizes and schedules. */
  lemma SameStoredRows(d: Decoders, q: Request, a: Response, b: Response,
                       cfgA: Batching.Config, beforeA: Schedule, afterA: Schedule,
                       cfgB: Batching.Config, beforeB: Schedule, afterB: Schedule)
    requires MeaningOf(d, q, a) == MeaningOf(d, q, b)
    requires Batched(cfgA, q.turnID, Rows(d, q, a), beforeA, afterA)
    requires Batched(cfgB, q.turnID, Rows(d, q, b), beforeB, afterB)
    ensures Essences(StoredRows(cfgA, q.turnID, beforeA, afterA))
         == Essences(StoredRows(cfgB, q.turnID, beforeB, afterB))
  {
    hide MeaningOf, Rows, Essences, Own, Batched, StoredRows;
    StoresOwnRows(cfgA, q.turnID, Rows(d, q, a), beforeA, afterA);
    StoresOwnRows(cfgB, q.turnID, Rows(d, q, b), beforeB, afterB);
    SameMeaningSameRows(d, q, a, b);
  }

  lemma {:induction false} OwnAll(turnID: string, rows: seq<AuditEvent>)
    requires forall i | 0 <= i < |rows| :: rows[i].turnID == turnID && rows[i].direction == "response"
    ensures Own(turnID, rows) == rows
  {
    FilterMapAll((e: AuditEvent) => if e.turnID == turnID && e.direction == "response" then Some(e) else None,
                 rows, rows);
  }

  /** The rows of a response are all its own, so that a batcher gets them from among any others, as
      long as those belong to other turns or are requests. */
  lemma OwnAmongOthers(d: Decoders, q: Request, r: Response, before: seq<AuditEvent>, after: seq<AuditEvent>)
    ensures Own(q.turnID, before + Rows(d, q, r) + after)
         == Own(q.turnID, before) + Rows(d, q, r) + Own(q.turnID, after)
  {
    var own := (e: AuditEvent) => if e.turnID == q.turnID && e.direction == "response" then Some(e) else None;
    if MeaningOf(d, q, r).Structured? {
      hide MeaningOf, Rows;
      RowsCarryTurn(d, q, r);
      OwnAll(q.turnID, Rows(d, q, r));
    }
    FilterMapAppend(own, before, Rows(d, q, r));
    FilterMapAppend(own, before + Rows(d, q, r), after);
  }
}
