/** Line framing of an event stream: what the parsers' scanner loop sees, and a reference model of
    section 9.2.6 of the WHATWG HTML Living Standard (server-sent events). A body is a string with
    one char per byte. */
module Sse {
  import opened Sequences

  const LF := '\n'
  const CR := '\r'

  /** Position of the first c in s, or |s|. */
  function IndexOf(s: string, c: char): (k: nat)
    ensures k <= |s|
    ensures k < |s| ==> s[k] == c
    ensures c !in s[..k]
  {
    if s == "" || s[0] == c then 0
    else
      var k := IndexOf(s[1..], c);
      assert s[..k + 1] == [s[0]] + s[1..][..k];
      k + 1
  }

  lemma {:induction false} IndexIs(s: string, c: char, k: nat)
    requires k < |s| && s[k] == c && c !in s[..k]
    ensures IndexOf(s, c) == k
  {
    if k > 0 {
      assert s[0] in s[..k];
      assert s[..k] == [s[0]] + s[1..][..k - 1];
      IndexIs(s[1..], c, k - 1);
    }
  }

  lemma NoIndex(s: string, c: char)
    requires c !in s
    ensures IndexOf(s, c) == |s|
  {
  }

  lemma InSlice(s: string, c: char, i: nat, k: nat, j: nat)
    requires i <= k < j <= |s| && s[k] == c
    ensures c in s[i..j]
  {
    assert s[i..j][k - i] == c;
  }

  // ---------- the program's framing ----------

  function DropCR(line: string): string {
    if line != "" && line[|line| - 1] == CR then line[..|line| - 1] else line
  }

  /** The tokens of a line scanner, and whether it stopped at a token that did not fit its buffer. */
  datatype Scanned = Scanned(lines: seq<string>, tooLong: bool)

  /** bufio.Scanner over ScanLines with a buffer of `limit` bytes: a raw line of `limit` or more
      bytes ends the scan with an error, after the lines before it. */
  function ScanLines(body: string, limit: nat): Scanned
    decreases |body|
  {
    if body == "" then Scanned([], false)
    else
      var k := IndexOf(body, LF);
      if k >= limit then Scanned([], true)
      else if k == |body| then Scanned([DropCR(body)], false)
      else
        var rest := ScanLines(body[k + 1..], limit);
        Scanned([DropCR(body[..k])] + rest.lines, rest.tooLong)
  }

  const DATA_PREFIX := "data: "
  const DONE := "[DONE]"

  /** The payload the loop hands to the JSON decoder, if the line carries one. */
  function PayloadOf(line: string): Option<string> {
    if DATA_PREFIX <= line then Keep(line[|DATA_PREFIX|..]) else None
  }

  function Keep(data: string): Option<string> {
    if data == "" || data == DONE then None else Some(data)
  }

  function Payloads(lines: seq<string>): seq<string> {
    FilterMap(PayloadOf, lines)
  }

  /** The typed events among the payloads; a payload that does not decode is skipped. */
  function Decoded<E>(lines: seq<string>, decode: string -> Option<E>): seq<E> {
    FilterMap(decode, Payloads(lines))
  }

  /** What one more line contributes. */
  lemma DecodedSnoc<E>(lines: seq<string>, line: string, decode: string -> Option<E>)
    ensures Decoded(lines + [line], decode) ==
            if PayloadOf(line).Some? && decode(PayloadOf(line).value).Some?
            then Decoded(lines, decode) + [decode(PayloadOf(line).value).value]
            else Decoded(lines, decode)
  {
    FilterMapSnoc(PayloadOf, lines, line);
    if PayloadOf(line).Some? {
      FilterMapSnoc(decode, Payloads(lines), PayloadOf(line).value);
    }
  }

  lemma ScanFirstLine(body: string, limit: nat)
    requires IndexOf(body, LF) < |body| && IndexOf(body, LF) < limit
    ensures var k := IndexOf(body, LF);
            var s := ScanLines(body[k + 1..], limit);
            ScanLines(body, limit) == Scanned([DropCR(body[..k])] + s.lines, s.tooLong)
  {
  }

  lemma ScanNotTooLong(body: string, limit: nat)
    requires body != "" && !ScanLines(body, limit).tooLong
    ensures IndexOf(body, LF) < limit
  {
  }

  lemma ScanNothing(limit: nat)
    ensures ScanLines("", limit) == Scanned([], false)
  {
  }

  lemma ScanLastLine(body: string, limit: nat)
    requires body != "" && IndexOf(body, LF) == |body| < limit
    ensures ScanLines(body, limit) == Scanned([DropCR(body)], false)
  {
  }

  // ---------- printing and scanning back ----------

  /** One event as the upstreams send it; OpenAI sends no event line. */
  datatype Frame = Frame(event: Option<string>, data: string)

  ghost predicate IsEol(eol: string) {
    eol == [LF] || eol == [CR, LF]
  }

  function PrintFrame(f: Frame, eol: string): string {
    (if f.event.Some? then "event: " + f.event.value + eol else "") + ("data: " + f.data + eol + eol)
  }

  function Print(frames: seq<Frame>, eol: string): string {
    if frames == [] then "" else PrintFrame(frames[0], eol) + Print(frames[1..], eol)
  }

  /** A single line that, with its line end, fits the scanner's buffer. */
  ghost predicate Fits(line: string, eol: string, limit: nat) {
    && LF !in line && CR !in line
    && |line| + |eol| <= limit
  }

  ghost predicate FrameFits(f: Frame, eol: string, limit: nat) {
    && Fits(DATA_PREFIX + f.data, eol, limit)
    && (f.event.Some? ==> Fits("event: " + f.event.value, eol, limit))
  }

  /** s is what the scanner makes of a line followed by the text that scans to t. */
  ghost predicate LineThen(s: Scanned, line: string, t: Scanned) {
    s.lines == [line] + t.lines && s.tooLong == t.tooLong
  }

  lemma ScanRawLine(body: string, raw: string, rest: string, limit: nat)
    requires LF !in raw && |raw| < limit
    requires body == raw + [LF] + rest
    ensures LineThen(ScanLines(body, limit), DropCR(raw), ScanLines(rest, limit))
  {
    assert body[..|raw|] == raw && body[|raw| + 1..] == rest;
    IndexIs(body, LF, |raw|);
  }

  lemma DropAddedCR(line: string)
    requires CR !in line
    ensures DropCR(line + [CR]) == line && DropCR(line) == line
  {
  }

  lemma ScanOneLine(body: string, line: string, eol: string, rest: string, limit: nat)
    requires IsEol(eol) && Fits(line, eol, limit)
    requires body == line + eol + rest
    ensures LineThen(ScanLines(body, limit), line, ScanLines(rest, limit))
  {
    DropAddedCR(line);
    if eol == [LF] {
      ScanRawLine(body, line, rest, limit);
    } else {
      var raw := line + [CR];
      assert line + eol == raw + [LF];
      ScanRawLine(body, raw, rest, limit);
    }
  }

  function DataOf(frames: seq<Frame>): (ps: seq<string>)
    ensures |ps| == |frames| && forall i | 0 <= i < |ps| :: ps[i] == frames[i].data
  {
    if frames == [] then [] else [frames[0].data] + DataOf(frames[1..])
  }

  function FrameLines(f: Frame): seq<string> {
    (if f.event.Some? then ["event: " + f.event.value] else []) + [DATA_PREFIX + f.data, ""]
  }

  lemma ScanTwoLines(body: string, first: string, second: string, eol: string, tail: string, limit: nat)
    requires IsEol(eol) && Fits(first, eol, limit) && Fits(second, eol, limit)
    requires body == first + eol + (second + eol + tail)
    ensures ScanLines(body, limit).lines == [first, second] + ScanLines(tail, limit).lines
    ensures ScanLines(body, limit).tooLong == ScanLines(tail, limit).tooLong
  {
    hide ScanLines;
    var rest := second + eol + tail;
    ScanOneLine(rest, second, eol, tail, limit);
    ScanOneLine(body, first, eol, rest, limit);
  }

  lemma ScanFrame(f: Frame, eol: string, tail: string, limit: nat)
    requires IsEol(eol) && FrameFits(f, eol, limit)
    ensures ScanLines(PrintFrame(f, eol) + tail, limit).lines == FrameLines(f) + ScanLines(tail, limit).lines
    ensures ScanLines(PrintFrame(f, eol) + tail, limit).tooLong == ScanLines(tail, limit).tooLong
  {
    hide ScanLines;
    var dataLine := DATA_PREFIX + f.data;
    var afterEvent := dataLine + eol + ("" + eol + tail);
    ScanTwoLines(afterEvent, dataLine, "", eol, tail, limit);
    if f.event.Some? {
      var eventLine := "event: " + f.event.value;
      ScanOneLine(eventLine + eol + afterEvent, eventLine, eol, afterEvent, limit);
      assert PrintFrame(f, eol) + tail == eventLine + eol + afterEvent;
    } else {
      assert PrintFrame(f, eol) + tail == afterEvent;
    }
  }

  lemma PayloadOfDataLine(data: string)
    ensures PayloadOf(DATA_PREFIX + data) == Keep(data)
  {
    assert (DATA_PREFIX + data)[|DATA_PREFIX|..] == data;
  }

  lemma EventLineSkipped(name: string)
    ensures PayloadOf("event: " + name) == None
  {
    assert ("event: " + name)[0] == 'e';
  }

  lemma FramePayloads(f: Frame)
    ensures Payloads(FrameLines(f)) == FilterMap(Keep, [f.data])
  {
    var dataLine := DATA_PREFIX + f.data;
    var before := if f.event.Some? then [] + ["event: " + f.event.value] else [];
    if f.event.Some? {
      EventLineSkipped(f.event.value);
      FilterMapSnoc(PayloadOf, [], before[0]);
    }
    assert Payloads(before) == [];
    PayloadOfDataLine(f.data);
    FilterMapSnoc(PayloadOf, before, dataLine);
    FilterMapSnoc(PayloadOf, before + [dataLine], "");
    FilterMapSnoc(Keep, [], f.data);
    assert FrameLines(f) == before + [dataLine] + [""];
    assert [] + [f.data] == [f.data];
  }

  lemma ScanFramePayloads(f: Frame, eol: string, rest: string, limit: nat)
    requires IsEol(eol) && FrameFits(f, eol, limit)
    ensures var s, t := ScanLines(PrintFrame(f, eol) + rest, limit), ScanLines(rest, limit);
            s.tooLong == t.tooLong && Payloads(s.lines) == FilterMap(Keep, [f.data]) + Payloads(t.lines)
  {
    hide ScanLines, PrintFrame, FrameLines, FrameFits, PayloadOf, Keep;
    ScanFrame(f, eol, rest, limit);
    FramePayloads(f);
    FilterMapAppend(PayloadOf, FrameLines(f), ScanLines(rest, limit).lines);
  }

  lemma PrintCons(frames: seq<Frame>, eol: string, tail: string)
    requires frames != []
    ensures Print(frames, eol) + tail == PrintFrame(frames[0], eol) + (Print(frames[1..], eol) + tail)
    ensures FilterMap(Keep, DataOf(frames))
         == FilterMap(Keep, [frames[0].data]) + FilterMap(Keep, DataOf(frames[1..]))
  {
    FilterMapAppend(Keep, [frames[0].data], DataOf(frames[1..]));
  }

  lemma PrintNothing(eol: string)
    ensures Print([], eol) == "" && FilterMap(Keep, DataOf([])) == []
  {
  }

  /** Scanning a printed stream gives back its payloads, less the ones the parsers skip, whatever comes
      after it. */
  lemma {:induction false} PrintThenScan(frames: seq<Frame>, eol: string, tail: string, limit: nat)
    requires IsEol(eol)
    requires forall f | f in frames :: FrameFits(f, eol, limit)
    ensures var s, t := ScanLines(Print(frames, eol) + tail, limit), ScanLines(tail, limit);
            && s.tooLong == t.tooLong
            && Payloads(s.lines) == FilterMap(Keep, DataOf(frames)) + Payloads(t.lines)
  {
    hide ScanLines, PrintFrame, FrameFits, Payloads, Keep, IsEol, FilterMap, DataOf, Print;
    if frames == [] {
      PrintNothing(eol);
      assert "" + tail == tail && [] + Payloads(ScanLines(tail, limit).lines) == Payloads(ScanLines(tail, limit).lines);
    } else {
      PrintThenScan(frames[1..], eol, tail, limit);
      assert frames[0] in frames;
      ScanFramePayloads(frames[0], eol, Print(frames[1..], eol) + tail, limit);
      PrintCons(frames, eol, tail);
    }
  }

  /** The round trip: payloads that are neither empty nor the end marker all come back. */
  lemma {:induction false} KeepAll(ps: seq<string>)
    requires forall i | 0 <= i < |ps| :: ps[i] != "" && ps[i] != DONE
    ensures FilterMap(Keep, ps) == ps
  {
    if ps != [] {
      KeepAll(ps[..|ps| - 1]);
      assert ps == ps[..|ps| - 1] + [ps[|ps| - 1]];
    }
  }

  lemma PrintRoundTrip(frames: seq<Frame>, eol: string, limit: nat)
    requires IsEol(eol)
    requires forall f | f in frames :: FrameFits(f, eol, limit)
    requires forall i | 0 <= i < |frames| :: frames[i].data != "" && frames[i].data != DONE
    ensures ScanLines(Print(frames, eol), limit).tooLong == false
    ensures Payloads(ScanLines(Print(frames, eol), limit).lines) == DataOf(frames)
  {
    PrintThenScan(frames, eol, "", limit);
    assert Print(frames, eol) + "" == Print(frames, eol);
    KeepAll(DataOf(frames));
  }

  /** Raw lines, each with its LF. */
  function Terminated(raws: seq<string>): string {
    if raws == [] then "" else raws[0] + [LF] + Terminated(raws[1..])
  }

  predicate EndsInCR(s: string) {
    s != "" && s[|s| - 1] == '\r'
  }

  /** One CR before the line's end is not part of the line. */
  ghost predicate IsLine(raw: string, line: string) {
    LF !in raw && (raw == line + [CR] || (raw == line && !EndsInCR(raw)))
  }

  lemma DropCRIsLine(raw: string)
    requires LF !in raw
    ensures IsLine(raw, DropCR(raw))
  {
    if raw != "" && raw[|raw| - 1] == CR {
      assert raw == raw[..|raw| - 1] + [CR];
    }
  }

  /** A body that scans is split at its LFs and nowhere else; the last line needs none. */
  lemma {:induction false} ScanSplits(body: string, limit: nat) returns (raws: seq<string>)
    requires !ScanLines(body, limit).tooLong
    ensures var lines := ScanLines(body, limit).lines;
            |lines| == |raws| && forall i | 0 <= i < |raws| :: IsLine(raws[i], lines[i])
    ensures Terminated(raws) == body || (raws != [] && raws[|raws| - 1] != "" && Terminated(raws) == body + [LF])
    decreases |body|
  {
    hide IsLine, DropCR, ScanLines, Terminated, IndexOf;
    if body == "" {
      ScanNothing(limit);
      raws := [];
      assert Terminated(raws) == "" by { TerminatedNothing(); }
    } else {
      ScanNotTooLong(body, limit);
      var k := IndexOf(body, LF);
      DropCRIsLine(body[..k]);
      if k < |body| {
        ScanFirstLine(body, limit);
        var rest := ScanSplits(body[k + 1..], limit);
        TerminatedCons(body[..k], rest);
        assert body == body[..k] + [LF] + body[k + 1..];
        assert body + [LF] == body[..k] + [LF] + (body[k + 1..] + [LF]);
        raws := [body[..k]] + rest;
      } else {
        ScanLastLine(body, limit);
        TerminatedCons(body, []);
        TerminatedNothing();
        assert body[..k] == body;
        raws := [body];
      }
    }
  }

  lemma TerminatedNothing()
    ensures Terminated([]) == ""
  {
  }

  lemma TerminatedCons(raw: string, rest: seq<string>)
    ensures Terminated([raw] + rest) == raw + [LF] + Terminated(rest)
    ensures rest == [] ==> Terminated([raw]) == raw + [LF]
  {
    assert ([raw] + rest)[1..] == rest;
    assert rest == [] ==> [raw] + rest == [raw];
  }

  /** The scan fails exactly when some raw line is as long as the buffer. */
  ghost predicate HasLongLine(body: string, limit: nat)
  {
    exists i, j :: 0 <= i < j <= |body| && j - i >= limit && LF !in body[i..j]
  }

  /** A long line is the first one, or lies in what follows the first. */
  lemma LongLineSplit(body: string, limit: nat, k: nat)
    requires 0 < limit && k < limit && k < |body| && body[k] == LF
    ensures HasLongLine(body, limit) <==> HasLongLine(body[k + 1..], limit)
  {
    var rest := body[k + 1..];
    if HasLongLine(body, limit) {
      var i, j :| 0 <= i < j <= |body| && j - i >= limit && LF !in body[i..j];
      if i <= k {
        InSlice(body, LF, i, k, j);
        assert false;
      }
      assert body[i..j] == rest[i - k - 1..j - k - 1];
    }
    if HasLongLine(rest, limit) {
      var i, j :| 0 <= i < j <= |rest| && j - i >= limit && LF !in rest[i..j];
      assert body[i + k + 1..j + k + 1] == rest[i..j];
    }
  }

  lemma {:induction false} TooLongIffLongLine(body: string, limit: nat)
    requires limit > 0
    ensures ScanLines(body, limit).tooLong <==> HasLongLine(body, limit)
    decreases |body|
  {
    if body != "" {
      var k := IndexOf(body, LF);
      if k >= limit {
        assert body[0..k] == body[..k];
      } else if k < |body| {
        TooLongIffLongLine(body[k + 1..], limit);
        hide HasLongLine, IndexOf;
        LongLineSplit(body, limit, k);
      }
    }
  }
}
