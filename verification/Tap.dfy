/** The response tap: a TeeReader hands the consumer the upstream bytes and writes each chunk into a
    rendezvous pipe, which an audit goroutine reads to its end. A step system, and the object that
    takes its steps. */
module Tap {

  /** remaining: not yet read from the upstream body. chunk: read by the Read call in progress.
      pending: the part of the chunk that the pipe write still has to hand over. delivered: returned
      to the consumer. captured: read by the audit goroutine. completed: the bodies passed to
      onComplete. */
  datatype State = State(remaining: string, chunk: string, pending: string, delivered: string,
                         captured: string, closed: bool, completed: seq<string>)

  datatype Step =
    | Read(n: nat)      // the consumer's Read takes n bytes from the body and enters the pipe write
    | Transfer(k: nat)  // the goroutine takes k of the pending bytes
    | Return            // the pipe write is done, Read returns
    | Close             // the consumer closes the body
    | Complete          // the goroutine sees the end of the pipe and calls onComplete

  function Initial(body: string): State {
    State(body, "", "", "", "", false, [])
  }

  /** The goroutine reads until it has called onComplete. There is one consumer: it reads only while
      it is not inside Read, closes outside Read, and does not read after closing. */
  predicate Enabled(s: State, step: Step) {
    match step
    case Read(n) => !s.closed && s.chunk == "" && n <= |s.remaining|
    case Transfer(k) => s.completed == [] && 1 <= k <= |s.pending|
    case Return => s.chunk != "" && s.pending == ""
    case Close => !s.closed && s.chunk == ""
    case Complete => s.closed && s.completed == []
  }

  function Apply(s: State, step: Step): State
    requires Enabled(s, step)
  {
    match step
    case Read(n) => s.(remaining := s.remaining[n..], chunk := s.remaining[..n], pending := s.remaining[..n])
    case Transfer(k) => s.(pending := s.pending[k..], captured := s.captured + s.pending[..k])
    case Return => s.(delivered := s.delivered + s.chunk, chunk := "")
    case Close => s.(closed := true)
    case Complete => s.(completed := [s.captured])
  }

  predicate ValidRun(s: State, steps: seq<Step>)
    decreases |steps|
  {
    steps == [] || (Enabled(s, steps[0]) && ValidRun(Apply(s, steps[0]), steps[1..]))
  }

  function After(s: State, steps: seq<Step>): State
    requires ValidRun(s, steps)
    decreases |steps|
  {
    if steps == [] then s else After(Apply(s, steps[0]), steps[1..])
  }

  // ---------- safety ----------

  /** Captured and pending bytes are the bytes read, and these with the rest are the body. */
  ghost predicate Inv(body: string, s: State) {
    && s.captured + s.pending == s.delivered + s.chunk
    && s.delivered + s.chunk + s.remaining == body
    && |s.pending| <= |s.chunk|
    && (s.closed ==> s.chunk == "")
    && (s.completed != [] ==> s.closed && s.completed == [s.captured])
  }

  lemma StepKeepsInv(body: string, s: State, step: Step)
    requires Inv(body, s) && Enabled(s, step)
    ensures Inv(body, Apply(s, step))
  {
    match step {
      case Read(n) =>
        assert s.delivered + s.chunk == s.delivered;
        assert s.remaining[..n] + s.remaining[n..] == s.remaining;
      case Transfer(k) =>
        assert s.captured + s.pending[..k] + s.pending[k..] == s.captured + s.pending;
      case Return =>
        assert s.captured + s.pending == s.captured;
        assert s.delivered + s.chunk + "" == s.delivered + s.chunk;
      case Close =>
      case Complete =>
    }
  }

  lemma {:induction false} RunKeepsInv(body: string, s: State, steps: seq<Step>)
    requires Inv(body, s) && ValidRun(s, steps)
    ensures Inv(body, After(s, steps))
    decreases |steps|
  {
    if steps != [] {
      hide Inv, Enabled, Apply;
      StepKeepsInv(body, s, steps[0]);
      RunKeepsInv(body, Apply(s, steps[0]), steps[1..]);
    }
  }

  /** Whatever the read sizes on either side, the consumer gets the body's own bytes, and onComplete
      gets, once, exactly the bytes that the consumer read before it closed; the whole body if and
      only if it read to the end. */
  lemma TapIsFaithful(body: string, steps: seq<Step>)
    requires ValidRun(Initial(body), steps)
    ensures var s := After(Initial(body), steps);
            && s.delivered <= body
            && |s.completed| <= 1
            && (s.completed != [] ==> s.closed && s.completed == [s.delivered])
            && (s.completed != [] ==> (s.completed == [body] <==> s.remaining == ""))
  {
    RunKeepsInv(body, Initial(body), steps);
    var s := After(Initial(body), steps);
    assert s.delivered == body[..|s.delivered|];
    if s.completed != [] {
      assert s.captured + s.pending == s.captured && s.delivered + s.chunk == s.delivered;
    }
  }

  lemma {:induction false} ClosedIsFinal(body: string, s: State, steps: seq<Step>)
    requires Inv(body, s) && ValidRun(s, steps) && s.closed
    ensures After(s, steps).closed && After(s, steps).delivered == s.delivered
    ensures s.completed <= After(s, steps).completed
    decreases |steps|
  {
    if steps != [] {
      StepKeepsInv(body, s, steps[0]);
      ClosedIsFinal(body, Apply(s, steps[0]), steps[1..]);
    }
  }

  // ---------- progress ----------

  /** In every reachable state, bytes that wait in the pipe find the goroutine still reading: the
      consumer is never left inside a write that nobody takes. */
  lemma PendingIsTaken(body: string, steps: seq<Step>, k: nat)
    requires ValidRun(Initial(body), steps)
    requires 1 <= k <= |After(Initial(body), steps).pending|
    ensures Enabled(After(Initial(body), steps), Transfer(k))
  {
    RunKeepsInv(body, Initial(body), steps);
  }

  /** No step changes the state any more. */
  ghost predicate Quiescent(s: State) {
    forall step | Enabled(s, step) :: Apply(s, step) == s
  }

  /** A run can end only when the body is closed and onComplete has been called, once, with what the
      consumer read; and there it does end. */
  lemma QuiescentIffCompleted(body: string, steps: seq<Step>)
    requires ValidRun(Initial(body), steps)
    ensures var s := After(Initial(body), steps);
            Quiescent(s) <==> s.closed && s.completed == [s.delivered]
  {
    RunKeepsInv(body, Initial(body), steps);
    var s := After(Initial(body), steps);
    if s.closed && s.completed == [s.delivered] {
      assert s.pending == "";
    } else {
      AlwaysAStep(body, s);
    }
  }

  lemma AlwaysAStep(body: string, s: State)
    requires Inv(body, s) && !(s.closed && s.completed == [s.delivered])
    ensures !Quiescent(s)
  {
    var step := if s.pending != "" then Transfer(|s.pending|)
                else if s.chunk != "" then Return
                else if !s.closed then Close
                else Complete;
    if s.pending == "" && s.chunk == "" {
      assert s.captured + s.pending == s.captured && s.delivered + s.chunk == s.delivered;
    }
    assert Enabled(s, step) && Apply(s, step) != s;
  }

  function Measure(s: State): nat {
    4 * |s.remaining| + 2 * |s.pending| + (if s.chunk == "" then 0 else 1)
    + (if s.closed then 0 else 1) + (if s.completed == [] then 1 else 0)
  }

  ghost predicate Productive(s: State, steps: seq<Step>)
    requires ValidRun(s, steps)
    decreases |steps|
  {
    steps == [] || (Apply(s, steps[0]) != s && Productive(Apply(s, steps[0]), steps[1..]))
  }

  lemma StepDecreases(s: State, step: Step)
    requires Enabled(s, step) && Apply(s, step) != s
    ensures Measure(Apply(s, step)) < Measure(s)
  {
    if step == Read(0) {
      assert s.remaining[0..] == s.remaining;
    }
  }

  /** A run in which each step changes something has at most 4 * |body| + 2 steps. */
  lemma {:induction false} TapTerminates(s: State, steps: seq<Step>)
    requires ValidRun(s, steps) && Productive(s, steps)
    ensures |steps| + Measure(After(s, steps)) <= Measure(s)
    decreases |steps|
  {
    if steps != [] {
      StepDecreases(s, steps[0]);
      TapTerminates(Apply(s, steps[0]), steps[1..]);
    }
  }

  // ---------- what a consumer can do ----------

  function Total(chunks: seq<string>): string {
    if chunks == [] then "" else chunks[0] + Total(chunks[1..])
  }

  /** One Read: the chunk goes through the pipe in one transfer and comes back. */
  function Reading(chunk: string): seq<Step> {
    if chunk == "" then [Read(0)] else [Read(|chunk|), Transfer(|chunk|), Return]
  }

  function ReadAll(chunks: seq<string>): seq<Step> {
    if chunks == [] then [] else Reading(chunks[0]) + ReadAll(chunks[1..])
  }

  /** A consumer can read the start of a body in chunks of any sizes and then close it; onComplete
      then has exactly what was read. */
  lemma AnyReadingCompletes(body: string, chunks: seq<string>) returns (steps: seq<Step>)
    requires Total(chunks) <= body
    ensures ValidRun(Initial(body), steps)
    ensures var s := After(Initial(body), steps);
            && s.delivered == Total(chunks) && s.completed == [Total(chunks)]
            && s.delivered + s.remaining == body
  {
    hide ValidRun, After;
    var s := Initial(body);
    ReadsChunks(s, chunks);
    var t := After(s, ReadAll(chunks));
    assert t.delivered == Total(chunks) && t.captured == Total(chunks);
    TwoSteps(t, Close, Complete);
    RunAppend(s, ReadAll(chunks), [Close, Complete]);
    steps := ReadAll(chunks) + [Close, Complete];
  }

  lemma TwoSteps(s: State, a: Step, b: Step)
    requires Enabled(s, a) && Enabled(Apply(s, a), b)
    ensures ValidRun(s, [a, b]) && After(s, [a, b]) == Apply(Apply(s, a), b)
  {
    assert [a, b][1..] == [b] && [b][1..] == [];
    assert After(Apply(s, a), [b]) == Apply(Apply(s, a), b);
  }

  lemma ReadsChunk(s: State, chunk: string)
    requires !s.closed && s.chunk == "" && s.pending == "" && s.completed == [] && chunk <= s.remaining
    ensures ValidRun(s, Reading(chunk))
    ensures After(s, Reading(chunk))
         == s.(remaining := s.remaining[|chunk|..], delivered := s.delivered + chunk, captured := s.captured + chunk)
  {
    var n := |chunk|;
    assert s.remaining[..n] == chunk;
    if chunk == "" {
      assert [Read(0)][1..] == [];
      assert s.delivered + chunk == s.delivered && s.captured + chunk == s.captured;
    } else {
      var inPipe := Apply(s, Read(n));
      assert chunk[..n] == chunk && chunk[n..] == "";
      TwoSteps(inPipe, Transfer(n), Return);
      assert Reading(chunk)[1..] == [Transfer(n), Return];
    }
  }

  lemma {:induction false} ReadsChunks(s: State, chunks: seq<string>)
    requires !s.closed && s.chunk == "" && s.pending == "" && s.completed == [] && Total(chunks) <= s.remaining
    ensures ValidRun(s, ReadAll(chunks))
    ensures After(s, ReadAll(chunks))
         == s.(remaining := s.remaining[|Total(chunks)|..],
               delivered := s.delivered + Total(chunks), captured := s.captured + Total(chunks))
    decreases |chunks|
  {
    if chunks == [] {
      assert s.delivered + "" == s.delivered && s.captured + "" == s.captured && s.remaining[0..] == s.remaining;
    } else {
      hide ValidRun, After, Enabled, Apply, Reading;
      var chunk, rest := chunks[0], Total(chunks[1..]);
      assert chunk <= s.remaining && rest <= s.remaining[|chunk|..];
      ReadsChunk(s, chunk);
      var next := s.(remaining := s.remaining[|chunk|..], delivered := s.delivered + chunk,
                     captured := s.captured + chunk);
      ReadsChunks(next, chunks[1..]);
      RunAppend(s, Reading(chunk), ReadAll(chunks[1..]));
      assert s.remaining[|chunk|..][|rest|..] == s.remaining[|chunk + rest|..];
      assert s.delivered + chunk + rest == s.delivered + (chunk + rest);
      assert s.captured + chunk + rest == s.captured + (chunk + rest);
    }
  }

  lemma {:induction false} RunAppend(s: State, a: seq<Step>, b: seq<Step>)
    requires ValidRun(s, a) && ValidRun(After(s, a), b)
    ensures ValidRun(s, a + b) && After(s, a + b) == After(After(s, a), b)
    decreases |a|
  {
    if a == [] {
      assert a + b == b;
    } else {
      assert (a + b)[1..] == a[1..] + b;
      RunAppend(Apply(s, a[0]), a[1..], b);
    }
  }

  // ---------- which responses are streams ----------

  const EVENT_STREAM := "text/event-stream"

  predicate Contains(s: string, t: string) {
    t <= s || (s != "" && Contains(s[1..], t))
  }

  predicate IsStream(contentType: string) {
    Contains(contentType, EVENT_STREAM)
  }

  /** The type need only stand somewhere, as it does in front of a charset. */
  lemma {:induction false} IsStreamIff(contentType: string)
    ensures IsStream(contentType) <==>
            exists i :: 0 <= i <= |contentType| && "text/event-stream" <= contentType[i..]
  {
    ContainsIff(contentType, EVENT_STREAM);
  }

  lemma {:induction false} ContainsIff(s: string, t: string)
    ensures Contains(s, t) <==> exists i :: 0 <= i <= |s| && t <= s[i..]
  {
    if t <= s {
      assert s[0..] == s;
    } else if s != "" {
      ContainsIff(s[1..], t);
      forall i | 0 <= i <= |s| && t <= s[i..] ensures Contains(s[1..], t) {
        assert i > 0 by { assert s[0..] == s; }
        assert s[1..][i - 1..] == s[i..];
      }
      forall i | 0 <= i <= |s[1..]| && t <= s[1..][i..] ensures t <= s[i + 1..] {
        assert s[1..][i..] == s[i + 1..];
      }
    }
  }

  // ---------- the object ----------

  /** The body that the consumer reads in place of the upstream's, with the pipe behind it and the
      goroutine at its other end. */
  class TapReadCloser {
    const body: string
    var position: nat     // bytes read from the upstream body
    var chunk: string
    var sent: nat         // bytes of the chunk already handed through the pipe
    var delivered: string
    var captured: string
    var closed: bool
    var completed: seq<string>

    ghost predicate Valid()
      reads this
    {
      position <= |body| && sent <= |chunk| && Inv(body, View())
    }

    function View(): State
      requires position <= |body| && sent <= |chunk|
      reads this
    {
      State(body[position..], chunk, chunk[sent..], delivered, captured, closed, completed)
    }

    constructor (body: string)
      ensures Valid() && this.body == body && View() == Initial(body)
    {
      this.body := body;
      position, chunk, sent, delivered, captured, closed, completed := 0, "", 0, "", "", false, [];
    }

    /** Tee: n bytes come from the body and the pipe write begins. */
    method BeginRead(n: nat)
      requires Valid() && Enabled(View(), Read(n))
      modifies this
      ensures Valid() && View() == Apply(old(View()), Read(n))
    {
      StepKeepsInv(body, View(), Read(n));
      chunk, sent := body[position..][..n], 0;
      position := position + n;
      assert View() == Apply(old(View()), Read(n));
    }

    /** The goroutine's side: io.ReadAll appends k bytes to what it has. */
    method PipeRead(k: nat)
      requires Valid() && Enabled(View(), Transfer(k))
      modifies this
      ensures Valid() && View() == Apply(old(View()), Transfer(k))
    {
      StepKeepsInv(body, View(), Transfer(k));
      captured := captured + chunk[sent..][..k];
      sent := sent + k;
      assert View() == Apply(old(View()), Transfer(k));
    }

    method EndRead()
      requires Valid() && Enabled(View(), Return)
      modifies this
      ensures Valid() && View() == Apply(old(View()), Return)
    {
      StepKeepsInv(body, View(), Return);
      delivered := delivered + chunk;
      chunk, sent := "", 0;
      assert View() == Apply(old(View()), Return);
    }

    method CloseBody()
      requires Valid() && Enabled(View(), Close)
      modifies this
      ensures Valid() && View() == Apply(old(View()), Close)
    {
      closed := true;
    }

    method OnPipeEnd()
      requires Valid() && Enabled(View(), Complete)
      modifies this
      ensures Valid() && View() == Apply(old(View()), Complete)
    {
      completed := completed + [captured];
    }

    /** Any schedule of the consumer and the goroutine. */
    method Run(schedule: seq<Step>)
      requires Valid() && ValidRun(View(), schedule)
      modifies this
      ensures Valid() && View() == After(old(View()), schedule)
    {
      for i := 0 to |schedule|
        invariant Valid() && ValidRun(View(), schedule[i..])
        invariant After(View(), schedule[i..]) == After(old(View()), schedule)
      {
        assert schedule[i..][1..] == schedule[i + 1..];
        match schedule[i] {
          case Read(n) => BeginRead(n);
          case Transfer(k) => PipeRead(k);
          case Return => EndRead();
          case Close => CloseBody();
          case Complete => OnPipeEnd();
        }
      }
    }
  }
}
