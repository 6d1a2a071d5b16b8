/** A reference reading of section 9.2.6 of the WHATWG HTML Living Standard (server-sent events),
    and the streams on which the program's framing agrees with it. */
module Whatwg {
  import opened Sequences
  import opened Sse

  // ---------- the standard's reading ----------

  /** Position of the first line end (LF or CR) in s, or |s|. */
  function EndOfLine(s: string): (k: nat)
    ensures k <= |s|
    ensures k < |s| ==> s[k] == LF || s[k] == CR
    ensures LF !in s[..k] && CR !in s[..k]
  {
    if s == "" || s[0] == LF || s[0] == CR then 0
    else
      var k := EndOfLine(s[1..]);
      assert s[..k + 1] == [s[0]] + s[1..][..k];
      k + 1
  }

  /** Lines end in CRLF, LF or a lone CR. */
  function Lines(s: string): seq<string>
    decreases |s|
  {
    if s == "" then []
    else
      var k := EndOfLine(s);
      if k == |s| then [s]
      else if s[k] == CR && k + 1 < |s| && s[k + 1] == LF then [s[..k]] + Lines(s[k + 2..])
      else [s[..k]] + Lines(s[k + 1..])
  }

  /** The data buffer and the data of the events dispatched so far. */
  datatype Stream = Stream(buffer: string, dispatched: seq<string>)

  const NOTHING_READ := Stream("", [])

  function StripSpace(value: string): string {
    if value != "" && value[0] == ' ' then value[1..] else value
  }

  function Process(st: Stream, line: string): Stream {
    if line == "" then
      if st.buffer == "" then st
      else Stream("", st.dispatched + [st.buffer[..|st.buffer| - 1]])
    else
      var k := IndexOf(line, ':');
      var value := if k == |line| then "" else StripSpace(line[k + 1..]);
      if line[..k] == "data" then st.(buffer := st.buffer + value + [LF]) else st
  }

  function ProcessAll(st: Stream, lines: seq<string>): Stream
    decreases |lines|
  {
    if lines == [] then st else ProcessAll(Process(st, lines[0]), lines[1..])
  }

  /** The data of an event that the stream ended before its blank line; the standard discards it. */
  function Unfinished(st: Stream): seq<string> {
    if st.buffer == "" then [] else [st.buffer[..|st.buffer| - 1]]
  }

  // ---------- where the two readings agree ----------

  /** Every CR belongs to a CRLF. */
  ghost predicate NoLoneCR(s: string) {
    forall i | 0 <= i < |s| && s[i] == CR :: i + 1 < |s| && s[i + 1] == LF
  }

  lemma {:induction false} SameLines(s: string, limit: nat)
    requires NoLoneCR(s) && !ScanLines(s, limit).tooLong
    ensures ScanLines(s, limit).lines == Lines(s)
    decreases |s|
  {
    if s != "" {
      var k := IndexOf(s, LF);
      var e := EndOfLine(s);
      FirstEnd(s);
      if k < |s| {
        var rest := s[k + 1..];
        forall i | 0 <= i < |rest| && rest[i] == CR ensures i + 1 < |rest| && rest[i + 1] == LF {
          assert s[i + k + 1] == CR;
        }
        SameLines(rest, limit);
      }
    }
  }

  /** The first line end is an LF, or a CR right before the first LF. */
  lemma FirstEnd(s: string)
    requires NoLoneCR(s)
    ensures var k, e := IndexOf(s, LF), EndOfLine(s);
            && (e == k || (e + 1 == k < |s| && s[e] == CR))
            && DropCR(s[..k]) == s[..e]
  {
    hide IndexOf, EndOfLine;
    var e := EndOfLine(s);
    if e < |s| && s[e] == CR {
      assert s[..e + 1] == s[..e] + [CR];
      IndexIs(s, LF, e + 1);
    } else {
      if e < |s| {
        IndexIs(s, LF, e);
      } else {
        assert s[..e] == s;
        NoIndex(s, LF);
      }
      assert e == 0 || s[..e][e - 1] != CR;
    }
  }

  /** Each event has at most one data line, spelt "data: "; `open` says the event has one already. */
  ghost predicate Regular(lines: seq<string>, open: bool) {
    if lines == [] then true
    else if lines[0] == "" then Regular(lines[1..], false)
    else if DATA_PREFIX <= lines[0] then !open && Regular(lines[1..], true)
    else lines[0][..IndexOf(lines[0], ':')] != "data" && Regular(lines[1..], open)
  }

  lemma DataLine(st: Stream, line: string)
    requires DATA_PREFIX <= line
    ensures Process(st, line) == st.(buffer := st.buffer + line[|DATA_PREFIX|..] + [LF])
  {
    assert line[..4] == "data" && line[4] == ':' && line[5] == ' ';
    IndexIs(line, ':', 4);
    assert line[5..][0] == ' ' && line[5..][1..] == line[6..];
  }

  /** All data seen so far, dispatched or not, less what the parsers skip. */
  function Seen(st: Stream): seq<string> {
    FilterMap(Keep, st.dispatched + Unfinished(st))
  }

  lemma SamePayloadsOneLine(st: Stream, line: string)
    requires Regular([line], st.buffer != "")
    ensures Seen(st) + Payloads([line]) == Seen(Process(st, line))
    ensures line != "" && !(DATA_PREFIX <= line) ==> Process(st, line) == st
    ensures DATA_PREFIX <= line ==> Process(st, line).buffer != ""
    ensures line == "" ==> Process(st, line).buffer == ""
  {
    var next := Process(st, line);
    FilterMapSnoc(PayloadOf, [], line);
    assert [] + [line] == [line];
    if DATA_PREFIX <= line {
      var data := line[|DATA_PREFIX|..];
      DataLine(st, line);
      assert next.buffer[..|next.buffer| - 1] == data;
      FilterMapSnoc(Keep, st.dispatched, data);
      assert st.dispatched + Unfinished(st) == st.dispatched;
      assert next.dispatched + Unfinished(next) == st.dispatched + [data];
    } else if line == "" {
      assert next.dispatched + Unfinished(next) == st.dispatched + Unfinished(st);
    }
  }

  /** The heart of the agreement: from any buffered event on, line by line. */
  lemma {:induction false} SamePayloadsFrom(st: Stream, lines: seq<string>)
    requires Regular(lines, st.buffer != "")
    ensures Seen(st) + Payloads(lines) == Seen(ProcessAll(st, lines))
    decreases |lines|
  {
    hide Process, Seen, PayloadOf;
    if lines == [] {
      assert Payloads(lines) == [];
    } else {
      var line := lines[0];
      SamePayloadsOneLine(st, line);
      SamePayloadsFrom(Process(st, line), lines[1..]);
      assert lines == [line] + lines[1..];
      FilterMapAppend(PayloadOf, [line], lines[1..]);
    }
  }

  /** On a stream with LF or CRLF line ends and at most one "data: " line per event, the payloads
      the program decodes are the data the standard dispatches, without "" and "[DONE]", followed
      by the data of an event cut off before its blank line. */
  lemma FramingAgrees(body: string, limit: nat)
    requires NoLoneCR(body) && Regular(Lines(body), false)
    requires !ScanLines(body, limit).tooLong
    ensures var end := ProcessAll(NOTHING_READ, Lines(body));
            Payloads(ScanLines(body, limit).lines) == FilterMap(Keep, end.dispatched + Unfinished(end))
  {
    SameLines(body, limit);
    SamePayloadsFrom(NOTHING_READ, Lines(body));
    assert NOTHING_READ.dispatched + Unfinished(NOTHING_READ) == [];
  }

  /** So the program reads exactly the dispatched data if and only if no event that carries a
      payload is left open at the end of the stream. */
  lemma FramingAgreesExactly(body: string, limit: nat)
    requires NoLoneCR(body) && Regular(Lines(body), false)
    requires !ScanLines(body, limit).tooLong
    ensures var end := ProcessAll(NOTHING_READ, Lines(body));
            Payloads(ScanLines(body, limit).lines) == FilterMap(Keep, end.dispatched)
            <==> FilterMap(Keep, Unfinished(end)) == []
  {
    FramingAgrees(body, limit);
    var end := ProcessAll(NOTHING_READ, Lines(body));
    FilterMapAppend(Keep, end.dispatched, Unfinished(end));
  }
}
