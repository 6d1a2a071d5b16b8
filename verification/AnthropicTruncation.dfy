/** What the parser makes of a stream that was cut off at any byte, as by a client that went away:
    results are lost only at the end of each list. */
module AnthropicTruncation {
  import opened Sequences
  import opened Sse
  import opened Llm
  import opened Anthropic
  import opened AnthropicReassembly

  /** The lines of a cut stream: the first lines of the whole, perhaps with one more cut short. */
  ghost predicate CutOf(short: seq<string>, lines: seq<string>) {
    || short <= lines
    || (&& 1 <= |short| <= |lines|
        && short[..|short| - 1] == lines[..|short| - 1]
        && short[|short| - 1] < lines[|short| - 1])
  }

  lemma CutOneLine(raw: string, n: nat)
    requires 0 < n <= |raw|
    ensures DropCR(raw[..n]) <= DropCR(raw)
  {
  }

  lemma CutCons(line: string, short: seq<string>, lines: seq<string>)
    requires CutOf(short, lines)
    ensures CutOf([line] + short, [line] + lines)
  {
    if !(short <= lines) {
      var m := |short| - 1;
      assert ([line] + short)[..m + 1] == [line] + short[..m];
      assert ([line] + lines)[..m + 1] == [line] + lines[..m];
    }
  }

  lemma ScanBeforeFirstEnd(body: string, n: nat, limit: nat)
    requires 0 < n <= IndexOf(body, LF) < limit
    ensures ScanLines(body[..n], limit) == Scanned([DropCR(body[..n])], false)
    ensures ScanLines(body, limit).lines != []
    ensures DropCR(body[..n]) <= ScanLines(body, limit).lines[0]
  {
    var k := IndexOf(body, LF);
    assert LF !in body[..n] by { assert forall c | c in body[..n] :: c in body[..k]; }
    NoIndex(body[..n], LF);
    assert body[..k][..n] == body[..n];
    CutOneLine(body[..k], n);
    assert k == |body| ==> body[..k] == body;
  }

  lemma CutFirst(line: string, lines: seq<string>)
    requires lines != [] && line <= lines[0]
    ensures CutOf([line], lines)
  {
    if line == lines[0] {
      assert [line] <= lines;
    } else {
      assert [line][..0] == lines[..0];
    }
  }

  lemma {:induction false} ScanCut(body: string, n: nat, limit: nat)
    requires n <= |body| && !ScanLines(body, limit).tooLong
    ensures !ScanLines(body[..n], limit).tooLong
    ensures CutOf(ScanLines(body[..n], limit).lines, ScanLines(body, limit).lines)
    decreases |body|
  {
    hide ScanLines, IndexOf, DropCR;
    if n == 0 {
      assert body[..n] == "";
      ScanNothing(limit);
    } else {
      ScanNotTooLong(body, limit);
      var k := IndexOf(body, LF);
      if n <= k {
        ScanBeforeFirstEnd(body, n, limit);
        CutFirst(DropCR(body[..n]), ScanLines(body, limit).lines);
      } else {
        var rest := body[k + 1..];
        assert body[..n][..k] == body[..k] && body[..n][k + 1..] == rest[..n - k - 1];
        IndexIs(body[..n], LF, k);
        ScanFirstLine(body, limit);
        ScanFirstLine(body[..n], limit);
        ScanCut(rest, n - k - 1, limit);
        CutCons(DropCR(body[..k]), ScanLines(rest[..n - k - 1], limit).lines, ScanLines(rest, limit).lines);
      }
    }
  }

  /** No payload that was cut short decodes, as holds of a JSON object: a proper prefix of the data
      on a data line, "[DONE]" included, is no text that the decoder accepts. */
  ghost predicate RejectsCut(lines: seq<string>, decode: string -> Option<Event>) {
    forall i, j | 0 <= i < |lines| && DATA_PREFIX <= lines[i] && |DATA_PREFIX| <= j < |lines[i]| ::
      decode(lines[i][|DATA_PREFIX|..j]).None?
  }

  lemma CutLineDecodesToNothing(lines: seq<string>, m: nat, p: string, decode: string -> Option<Event>)
    requires m < |lines| && p < lines[m] && RejectsCut(lines, decode)
    ensures PayloadOf(p).Some? ==> decode(PayloadOf(p).value).None?
  {
    if DATA_PREFIX <= p {
      assert p[|DATA_PREFIX|..] == lines[m][|DATA_PREFIX|..|p|];
      assert lines[m][..|DATA_PREFIX|] == p[..|DATA_PREFIX|];
    }
  }

  lemma PrefixDecoded(a: seq<string>, b: seq<string>, decode: string -> Option<Event>)
    ensures Decoded(a, decode) <= Decoded(a + b, decode)
  {
    FilterMapAppend(PayloadOf, a, b);
    FilterMapAppend(decode, Payloads(a), Payloads(b));
  }

  lemma CutDecoded(short: seq<string>, lines: seq<string>, decode: string -> Option<Event>)
    requires CutOf(short, lines) && RejectsCut(lines, decode)
    ensures Decoded(short, decode) <= Decoded(lines, decode)
  {
    hide Decoded, RejectsCut, PayloadOf;
    if short <= lines {
      assert lines == short + lines[|short|..];
      PrefixDecoded(short, lines[|short|..], decode);
    } else {
      var m := |short| - 1;
      CutLineDecodesToNothing(lines, m, short[m], decode);
      DecodedSnoc(lines[..m], short[m], decode);
      assert short == lines[..m] + [short[m]];
      assert lines == lines[..m] + lines[m..];
      PrefixDecoded(lines[..m], lines[m..], decode);
    }
  }

  /** A stream cut at any byte still parses, and each of its lists is a prefix of the whole's. */
  lemma TruncatedBody(body: string, n: nat, limit: nat, decode: string -> Option<Event>)
    requires n <= |body| && !ScanLines(body, limit).tooLong
    requires RejectsCut(ScanLines(body, limit).lines, decode)
    ensures var short, whole := StreamResult(body[..n], limit, decode), StreamResult(body, limit, decode);
            short.Parsed? && whole.Parsed? && Extends(short.result, whole.result)
  {
    hide ScanLines, CutOf, Decoded, RejectsCut, Run, Extends;
    ScanCut(body, n, limit);
    var short := Decoded(ScanLines(body[..n], limit).lines, decode);
    var whole := Decoded(ScanLines(body, limit).lines, decode);
    CutDecoded(ScanLines(body[..n], limit).lines, ScanLines(body, limit).lines, decode);
    assert whole == short + whole[|short|..];
    TruncationKeepsPrefixes(short, whole[|short|..]);
  }
}
