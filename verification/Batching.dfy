/** The batcher as a step system: producers add to a bounded channel while a background loop
    receives, flushes by size or by tick, and drains on stop. Generic in the event type, it covers
    the audit batcher and the unprocessed batcher. */
module Batching {
  import opened Sequences

  datatype Config = Config(size: nat, capacity: nat)

  datatype Trigger = SizeReached | Ticked | Drained

  /** One call of flush, and whether the store took the batch. */
  datatype Flush<+T> = Flush(trigger: Trigger, events: seq<T>, written: bool)

  datatype Phase = Running | Draining | Finished

  /** channel, batch and phase are the loop's state; the rest is history: what was accepted in
      order, how many events were dropped, and how many were accepted after the drain began. */
  datatype State<+T> = State(phase: Phase, stopped: bool, channel: seq<T>, batch: seq<T>,
                             flushes: seq<Flush<T>>, accepted: seq<T>, dropped: nat, late: nat)

  /** What one goroutine does next. A flushing step carries the outcome of the write. */
  datatype Step<+T> =
    | Add(event: T)
    | Recv(written: bool)
    | Tick(written: bool)
    | Stop
    | EnterDrain
    | DrainRecv
    | Finish(written: bool)

  function Initial<T>(): State<T> {
    State(Running, false, [], [], [], [], 0, 0)
  }

  /** When a step can be taken; the select statement picks any case that is ready. */
  predicate Enabled<T>(s: State<T>, step: Step<T>) {
    match step
    case Add(_) => true
    case Recv(_) => s.phase == Running && s.channel != []
    case Tick(_) => s.phase == Running
    case Stop => !s.stopped
    case EnterDrain => s.phase == Running && s.stopped
    case DrainRecv => s.phase == Draining && s.channel != []
    case Finish(_) => s.phase == Draining && s.channel == []
  }

  function AddEvent<T>(cfg: Config, s: State<T>, e: T): State<T> {
    if |s.channel| < cfg.capacity then
      s.(channel := s.channel + [e], accepted := s.accepted + [e],
         late := if s.phase == Running then s.late else s.late + 1)
    else s.(dropped := s.dropped + 1)
  }

  function FlushBatch<T>(s: State<T>, trigger: Trigger, written: bool): State<T> {
    s.(batch := [], flushes := s.flushes + [Flush(trigger, s.batch, written)])
  }

  function Take<T>(s: State<T>): State<T>
    requires s.channel != []
  {
    s.(channel := s.channel[1..], batch := s.batch + [s.channel[0]])
  }

  function Apply<T>(cfg: Config, s: State<T>, step: Step<T>): State<T>
    requires Enabled(s, step)
  {
    match step
    case Add(e) => AddEvent(cfg, s, e)
    case Recv(w) =>
      var t := Take(s);
      if |t.batch| >= cfg.size then FlushBatch(t, SizeReached, w) else t
    case Tick(w) => if s.batch != [] then FlushBatch(s, Ticked, w) else s
    case Stop => s.(stopped := true)
    case EnterDrain => s.(phase := Draining)
    case DrainRecv => Take(s)
    case Finish(w) => (if s.batch != [] then FlushBatch(s, Drained, w) else s).(phase := Finished)
  }

  predicate ValidRun<T>(cfg: Config, s: State<T>, steps: seq<Step<T>>)
    decreases |steps|
  {
    steps == [] || (Enabled(s, steps[0]) && ValidRun(cfg, Apply(cfg, s, steps[0]), steps[1..]))
  }

  function After<T>(cfg: Config, s: State<T>, steps: seq<Step<T>>): State<T>
    requires ValidRun(cfg, s, steps)
    decreases |steps|
  {
    if steps == [] then s else After(cfg, Apply(cfg, s, steps[0]), steps[1..])
  }

  // ---------- what every step keeps ----------

  function Delivered<T>(flushes: seq<Flush<T>>): seq<T> {
    if flushes == [] then [] else Delivered(flushes[..|flushes| - 1]) + flushes[|flushes| - 1].events
  }

  /** What the store holds: the flushed batches whose write succeeded, each as a whole. */
  function Stored<T>(flushes: seq<Flush<T>>): seq<T> {
    if flushes == [] then []
    else
      var f := flushes[|flushes| - 1];
      Stored(flushes[..|flushes| - 1]) + (if f.written then f.events else [])
  }

  /** Size flushes are exact, tick flushes smaller, the final flush bounded by what the batch and
      the channel could hold plus late arrivals. No flush is empty. */
  ghost predicate WellShaped<T>(cfg: Config, f: Flush<T>, late: nat) {
    && |f.events| >= 1
    && match f.trigger
       case SizeReached => |f.events| == cfg.size
       case Ticked => |f.events| < cfg.size
       case Drained => |f.events| <= cfg.size - 1 + cfg.capacity + late
  }

  ghost predicate Inv<T>(cfg: Config, s: State<T>) {
    && Delivered(s.flushes) + s.batch + s.channel == s.accepted
    && |s.channel| <= cfg.capacity
    && (s.phase == Running ==> |s.batch| < cfg.size && s.late == 0)
    && (s.phase == Draining ==> |s.batch| + |s.channel| <= cfg.size - 1 + cfg.capacity + s.late)
    && (s.phase != Running ==> s.stopped)
    && (s.phase == Finished ==> s.batch == [])
    && (forall i | 0 <= i < |s.flushes| ::
          && WellShaped(cfg, s.flushes[i], s.late)
          && (s.flushes[i].trigger == Drained ==> s.phase == Finished && i == |s.flushes| - 1))
  }

  lemma DeliveredSnoc<T>(flushes: seq<Flush<T>>, f: Flush<T>)
    ensures Delivered(flushes + [f]) == Delivered(flushes) + f.events
    ensures Stored(flushes + [f]) == Stored(flushes) + (if f.written then f.events else [])
  {
    assert (flushes + [f])[..|flushes|] == flushes;
  }

  lemma TakeConserves<T>(s: State<T>)
    requires s.channel != []
    ensures Delivered(s.flushes) + Take(s).batch + Take(s).channel == Delivered(s.flushes) + s.batch + s.channel
  {
    assert s.channel == [s.channel[0]] + s.channel[1..];
  }

  lemma FlushConserves<T>(s: State<T>, trigger: Trigger, written: bool)
    ensures var t := FlushBatch(s, trigger, written);
            Delivered(t.flushes) + t.batch + t.channel == Delivered(s.flushes) + s.batch + s.channel
  {
    DeliveredSnoc(s.flushes, Flush(trigger, s.batch, written));
  }

  lemma StepKeepsInv<T>(cfg: Config, s: State<T>, step: Step<T>)
    requires cfg.size >= 1 && Inv(cfg, s) && Enabled(s, step)
    ensures Inv(cfg, Apply(cfg, s, step))
  {
    hide Delivered;
    match step {
      case Add(e) =>
        assert Delivered(s.flushes) + s.batch + (s.channel + [e]) == Delivered(s.flushes) + s.batch + s.channel + [e];
      case Recv(w) =>
        TakeConserves(s);
        FlushConserves(Take(s), SizeReached, w);
      case Tick(w) => FlushConserves(s, Ticked, w);
      case Stop =>
      case EnterDrain =>
      case DrainRecv => TakeConserves(s);
      case Finish(w) => FlushConserves(s, Drained, w);
    }
  }

  /** In every reachable state of every interleaving of producers, ticks, stop and the loop, nothing
      is lost, duplicated or reordered, and every flush has its shape. */
  lemma {:induction false} RunKeepsInv<T>(cfg: Config, s: State<T>, steps: seq<Step<T>>)
    requires cfg.size >= 1 && Inv(cfg, s) && ValidRun(cfg, s, steps)
    ensures Inv(cfg, After(cfg, s, steps))
    decreases |steps|
  {
    if steps != [] {
      hide Inv, Enabled, Apply;
      StepKeepsInv(cfg, s, steps[0]);
      RunKeepsInv(cfg, Apply(cfg, s, steps[0]), steps[1..]);
    }
  }

  lemma InitialInv<T>(cfg: Config)
    requires cfg.size >= 1
    ensures Inv(cfg, Initial<T>())
  {
  }

  // ---------- every Add is accounted for ----------

  function Added<T>(steps: seq<Step<T>>): seq<T> {
    if steps == [] then [] else (if steps[0].Add? then [steps[0].event] else []) + Added(steps[1..])
  }

  /** Each added event is accepted or counted as dropped; the accepted ones keep their order; and
      they are all the added ones if and only if none was dropped. */
  lemma AddsAccounted<T>(cfg: Config, s: State<T>, steps: seq<Step<T>>)
    requires ValidRun(cfg, s, steps)
    ensures var t := After(cfg, s, steps);
            && |t.accepted| + t.dropped == |s.accepted| + s.dropped + |Added(steps)|
            && IsSubsequence(t.accepted, s.accepted + Added(steps))
            && (t.accepted == s.accepted + Added(steps) <==> t.dropped == s.dropped)
  {
    hide IsSubsequence, After, ValidRun, Added;
    AcceptedInOrder(cfg, s, steps);
    AddsCounted(cfg, s, steps);
  }

  lemma StepAccepts<T>(cfg: Config, s: State<T>, step: Step<T>)
    requires Enabled(s, step)
    ensures var t := Apply(cfg, s, step);
            if step.Add? then
              || (t.accepted == s.accepted + [step.event] && t.dropped == s.dropped)
              || (t.accepted == s.accepted && t.dropped == s.dropped + 1)
            else t.accepted == s.accepted && t.dropped == s.dropped
  {
  }

  lemma CountOne<T>(t: State<T>, s: State<T>, next: State<T>, e: T, rest: seq<T>)
    requires || (next.accepted == s.accepted + [e] && next.dropped == s.dropped)
             || (next.accepted == s.accepted && next.dropped == s.dropped + 1)
    requires |t.accepted| + t.dropped == |next.accepted| + next.dropped + |rest|
    requires t.dropped >= next.dropped && (t.dropped == next.dropped ==> t.accepted == next.accepted + rest)
    ensures |t.accepted| + t.dropped == |s.accepted| + s.dropped + |[e] + rest|
    ensures t.dropped == s.dropped ==> t.accepted == s.accepted + ([e] + rest)
  {
  }

  lemma AfterFirst<T>(cfg: Config, s: State<T>, steps: seq<Step<T>>)
    requires steps != [] && ValidRun(cfg, s, steps)
    ensures Enabled(s, steps[0]) && ValidRun(cfg, Apply(cfg, s, steps[0]), steps[1..])
    ensures After(cfg, s, steps) == After(cfg, Apply(cfg, s, steps[0]), steps[1..])
  {
  }

  lemma {:induction false} AddsCounted<T>(cfg: Config, s: State<T>, steps: seq<Step<T>>)
    requires ValidRun(cfg, s, steps)
    ensures var t := After(cfg, s, steps);
            && |t.accepted| + t.dropped == |s.accepted| + s.dropped + |Added(steps)|
            && (t.dropped == s.dropped ==> t.accepted == s.accepted + Added(steps))
    decreases |steps|
  {
    if steps == [] {
      assert s.accepted + Added(steps) == s.accepted;
    } else {
      AfterFirst(cfg, s, steps);
      hide Apply, Enabled, After, ValidRun;
      var step := steps[0];
      var next := Apply(cfg, s, step);
      StepAccepts(cfg, s, step);
      AddsCounted(cfg, next, steps[1..]);
      DroppedGrows(cfg, next, steps[1..]);
      if step.Add? {
        CountOne(After(cfg, next, steps[1..]), s, next, step.event, Added(steps[1..]));
      } else {
        assert [] + Added(steps[1..]) == Added(steps[1..]);
      }
    }
  }

  lemma Reflexive<T>(xs: seq<T>)
    ensures IsSubsequence(xs, xs + [])
  {
    SubsequenceKeep([], [], xs);
    assert [] + xs == xs == xs + [];
  }

  lemma OneMore<T>(xs: seq<T>, before: seq<T>, after: seq<T>, e: T, rest: seq<T>)
    requires after == before || after == before + [e]
    requires IsSubsequence(xs, after + rest)
    ensures IsSubsequence(xs, before + ([e] + rest))
  {
    hide IsSubsequence;
    assert before + ([e] + rest) == before + [e] + rest;
    if after == before {
      SubsequenceInsert(xs, before, [e], rest);
    }
  }

  lemma {:induction false} AcceptedInOrder<T>(cfg: Config, s: State<T>, steps: seq<Step<T>>)
    requires ValidRun(cfg, s, steps)
    ensures IsSubsequence(After(cfg, s, steps).accepted, s.accepted + Added(steps))
    decreases |steps|
  {
    if steps == [] {
      Reflexive(s.accepted);
    } else {
      AfterFirst(cfg, s, steps);
      hide IsSubsequence, Apply, Enabled, After, ValidRun;
      var step := steps[0];
      var next := Apply(cfg, s, step);
      var rest := Added(steps[1..]);
      StepAccepts(cfg, s, step);
      AcceptedInOrder(cfg, next, steps[1..]);
      if step.Add? {
        OneMore(After(cfg, next, steps[1..]).accepted, s.accepted, next.accepted, step.event, rest);
      } else {
        assert [] + rest == rest;
      }
    }
  }

  lemma {:induction false} DroppedGrows<T>(cfg: Config, s: State<T>, steps: seq<Step<T>>)
    requires ValidRun(cfg, s, steps)
    ensures After(cfg, s, steps).dropped >= s.dropped
    decreases |steps|
  {
    if steps != [] {
      DroppedGrows(cfg, Apply(cfg, s, steps[0]), steps[1..]);
    }
  }

  function Change<T>(step: Step<T>): int {
    match step
    case Add(_) => 1
    case Recv(_) => -1
    case DrainRecv => -1
    case _ => 0
  }

  /** The highest level that a channel without a bound would reach, from `level` on. */
  function Peak<T>(level: int, steps: seq<Step<T>>): int
    decreases |steps|
  {
    if steps == [] then level
    else
      var later := Peak(level + Change(steps[0]), steps[1..]);
      if later > level then later else level
  }

  lemma {:induction false} PeakShift<T>(level: int, steps: seq<Step<T>>)
    ensures Peak(level + 1, steps) == Peak(level, steps) + 1
    ensures Peak(level, steps) >= level
    decreases |steps|
  {
    if steps != [] {
      assert level + 1 + Change(steps[0]) == level + Change(steps[0]) + 1;
      PeakShift(level + Change(steps[0]), steps[1..]);
    }
  }

  /** How many events a run drops is a matter of its schedule alone: as many as the peak of an
      unbounded channel exceeds the capacity by. So none is dropped if and only if, at no point of
      the run, the Adds are ahead of the receives by more than there was room for. */
  lemma {:induction false} DroppedIsExcess<T>(cfg: Config, s: State<T>, steps: seq<Step<T>>)
    requires |s.channel| <= cfg.capacity && ValidRun(cfg, s, steps)
    ensures var peak := Peak(|s.channel|, steps);
            After(cfg, s, steps).dropped == s.dropped + (if peak > cfg.capacity then peak - cfg.capacity else 0)
    decreases |steps|
  {
    if steps != [] {
      var next := Apply(cfg, s, steps[0]);
      DroppedIsExcess(cfg, next, steps[1..]);
      if next.dropped > s.dropped {
        PeakShift(|s.channel|, steps[1..]);
      }
    }
  }

  // ---------- write failures ----------

  ghost predicate AllWritten<T>(flushes: seq<Flush<T>>) {
    forall i | 0 <= i < |flushes| :: flushes[i].written
  }

  lemma {:induction false} StoredIsSubsequence<T>(flushes: seq<Flush<T>>)
    ensures IsSubsequence(Stored(flushes), Delivered(flushes))
  {
    if flushes != [] {
      var front, f := flushes[..|flushes| - 1], flushes[|flushes| - 1];
      hide IsSubsequence;
      StoredIsSubsequence(front);
      if f.written {
        SubsequenceKeep(Stored(front), Delivered(front), f.events);
      } else {
        assert Stored(front) + [] == Stored(front);
        SubsequenceSkip(Stored(front), Delivered(front), f.events);
      }
    }
  }

  lemma {:induction false} StoredAllIffWritten<T>(flushes: seq<Flush<T>>)
    requires forall i | 0 <= i < |flushes| :: flushes[i].events != []
    ensures |Stored(flushes)| <= |Delivered(flushes)|
    ensures |Stored(flushes)| == |Delivered(flushes)| ==> AllWritten(flushes)
    ensures AllWritten(flushes) ==> Stored(flushes) == Delivered(flushes)
  {
    if flushes != [] {
      StoredAllIffWritten(flushes[..|flushes| - 1]);
    }
  }

  /** Whatever writes fail, the store holds the accepted events with whole batches left out: in
      order, none twice, and all the delivered ones if and only if every write succeeded. */
  lemma StoreIsAcceptedLessBatches<T>(cfg: Config, s: State<T>)
    requires Inv(cfg, s)
    ensures IsSubsequence(Stored(s.flushes), s.accepted)
    ensures multiset(Stored(s.flushes)) <= multiset(s.accepted)
    ensures Stored(s.flushes) == Delivered(s.flushes) <==> AllWritten(s.flushes)
  {
    hide IsSubsequence;
    StoredIsSubsequence(s.flushes);
    StoredAllIffWritten(s.flushes);
    SubsequenceSkip(Stored(s.flushes), Delivered(s.flushes), s.batch + s.channel);
    assert Delivered(s.flushes) + (s.batch + s.channel) == s.accepted;
    SubsequenceCounts(Stored(s.flushes), s.accepted);
  }

  // ---------- shutdown ----------

  function Measure<T>(s: State<T>): nat {
    2 * |s.channel| + |s.batch| + match s.phase case Running => 2 case Draining => 1 case Finished => 0
  }

  /** Without further Adds, each step after Stop that changes anything decreases the measure. */
  lemma ShutdownStep<T>(cfg: Config, s: State<T>, step: Step<T>)
    requires s.stopped && !step.Add? && Enabled(s, step)
    ensures Apply(cfg, s, step) != s ==> Measure(Apply(cfg, s, step)) < Measure(s)
    ensures Apply(cfg, s, step).stopped
  {
  }

  /** No step of the run is an Add or leaves the state as it is. */
  ghost predicate Productive<T>(cfg: Config, s: State<T>, steps: seq<Step<T>>)
    requires ValidRun(cfg, s, steps)
    decreases |steps|
  {
    steps == [] ||
    (!steps[0].Add? && Apply(cfg, s, steps[0]) != s && Productive(cfg, Apply(cfg, s, steps[0]), steps[1..]))
  }

  /** So shutdown takes at most Measure(s) productive steps. */
  lemma {:induction false} ShutdownTerminates<T>(cfg: Config, s: State<T>, steps: seq<Step<T>>)
    requires s.stopped && ValidRun(cfg, s, steps) && Productive(cfg, s, steps)
    ensures |steps| + Measure(After(cfg, s, steps)) <= Measure(s)
    decreases |steps|
  {
    if steps != [] {
      ShutdownStep(cfg, s, steps[0]);
      ShutdownTerminates(cfg, Apply(cfg, s, steps[0]), steps[1..]);
    }
  }

  /** And the loop is never stuck before it has finished. */
  lemma ShutdownProgresses<T>(cfg: Config, s: State<T>) returns (step: Step<T>)
    requires s.stopped && s.phase != Finished
    ensures !step.Add? && Enabled(s, step) && Apply(cfg, s, step) != s
  {
    if s.phase == Running {
      step := EnterDrain;
    } else if s.channel != [] {
      step := DrainRecv;
    } else {
      step := Finish(true);
    }
  }

  lemma {:induction false} QuietRun<T>(cfg: Config, s: State<T>, steps: seq<Step<T>>)
    requires ValidRun(cfg, s, steps) && Added(steps) == []
    requires s.phase == Finished ==> s.channel == []
    ensures var t := After(cfg, s, steps);
            && t.accepted == s.accepted && t.late == s.late
            && (t.phase == Finished ==> t.channel == [])
    decreases |steps|
  {
    if steps != [] {
      QuietRun(cfg, Apply(cfg, s, steps[0]), steps[1..]);
    }
  }

  // ---------- which batches are flushed, and when ----------

  /** While the batch is not full, receiving only moves events from the channel to the batch. */
  lemma {:induction false} Gathers<T>(cfg: Config, s: State<T>, k: nat, w: bool)
    requires s.phase == Running && k <= |s.channel| && |s.batch| + k < cfg.size
    ensures ValidRun(cfg, s, Repeat(k, Recv(w)))
    ensures After(cfg, s, Repeat(k, Recv(w))) == s.(channel := s.channel[k..], batch := s.batch + s.channel[..k])
    decreases k
  {
    var steps := Repeat<Step<T>>(k, Recv(w));
    if k == 0 {
      assert s.batch + s.channel[..0] == s.batch && s.channel[0..] == s.channel;
    } else {
      assert steps[1..] == Repeat(k - 1, Recv(w));
      var next := Take(s);
      Gathers(cfg, next, k - 1, w);
      assert next.batch + next.channel[..k - 1] == s.batch + s.channel[..k];
      assert next.channel[k - 1..] == s.channel[k..];
    }
  }

  lemma FillingStep<T>(cfg: Config, s: State<T>, w: bool)
    requires s.phase == Running && s.channel != [] && |s.batch| + 1 == cfg.size
    ensures Enabled(s, Recv(w))
    ensures Apply(cfg, s, Recv(w))
         == s.(channel := s.channel[1..], batch := [],
               flushes := s.flushes + [Flush(SizeReached, s.batch + [s.channel[0]], w)])
  {
  }

  /** The event that fills it flushes it, with the write's own outcome. */
  lemma FillsAndFlushes<T>(cfg: Config, s: State<T>, w: bool)
    requires s.phase == Running && |s.batch| < cfg.size <= |s.batch| + |s.channel|
    ensures var n := cfg.size - |s.batch|;
            && ValidRun(cfg, s, Repeat(n, Recv(w)))
            && After(cfg, s, Repeat(n, Recv(w)))
            == s.(channel := s.channel[n..], batch := [],
                  flushes := s.flushes + [Flush(SizeReached, s.batch + s.channel[..n], w)])
  {
    var n := cfg.size - |s.batch|;
    hide ValidRun, After, Apply, Enabled;
    Gathers(cfg, s, n - 1, w);
    var full := s.(channel := s.channel[n - 1..], batch := s.batch + s.channel[..n - 1]);
    assert Repeat<Step<T>>(n, Recv(w)) == Repeat(n - 1, Recv(w)) + [Recv(w)];
    assert s.channel[n - 1..][1..] == s.channel[n..];
    assert s.batch + s.channel[..n - 1] + [s.channel[n - 1]] == s.batch + s.channel[..n];
    FillingStep(cfg, full, w);
    OneStepRun(cfg, full, Recv(w));
    RunAppend(cfg, s, Repeat(n - 1, Recv(w)), [Recv(w)]);
  }

  /** A tick flushes what there is of a batch. */
  lemma TickFlushes<T>(cfg: Config, s: State<T>, k: nat, w: bool)
    requires s.phase == Running && k <= |s.channel| && 0 < |s.batch| + k < cfg.size
    ensures var steps := Repeat(k, Recv(w)) + [Tick(w)];
            && ValidRun(cfg, s, steps)
            && After(cfg, s, steps) == s.(channel := s.channel[k..], batch := [],
                                          flushes := s.flushes + [Flush(Ticked, s.batch + s.channel[..k], w)])
  {
    Gathers(cfg, s, k, w);
    OneStepRun(cfg, After(cfg, s, Repeat(k, Recv(w))), Tick(w));
    RunAppend(cfg, s, Repeat(k, Recv(w)), [Tick(w)]);
  }

  lemma OneStepRun<T>(cfg: Config, s: State<T>, step: Step<T>)
    requires Enabled(s, step)
    ensures ValidRun(cfg, s, [step]) && After(cfg, s, [step]) == Apply(cfg, s, step)
  {
    assert [step][1..] == [];
  }

  lemma {:induction false} RunAppend<T>(cfg: Config, s: State<T>, a: seq<Step<T>>, b: seq<Step<T>>)
    requires ValidRun(cfg, s, a) && ValidRun(cfg, After(cfg, s, a), b)
    ensures ValidRun(cfg, s, a + b) && After(cfg, s, a + b) == After(cfg, After(cfg, s, a), b)
    decreases |a|
  {
    if a == [] {
      assert a + b == b;
    } else {
      assert (a + b)[1..] == a[1..] + b;
      RunAppend(cfg, Apply(cfg, s, a[0]), a[1..], b);
    }
  }

  lemma {:induction false} Drains<T>(cfg: Config, s: State<T>, w: bool)
    requires s.phase == Draining
    ensures var steps, rest := Repeat(|s.channel|, DrainRecv) + [Finish(w)], s.batch + s.channel;
            && ValidRun(cfg, s, steps)
            && After(cfg, s, steps)
            == s.(phase := Finished, channel := [], batch := [],
                  flushes := s.flushes + (if rest == [] then [] else [Flush(Drained, rest, w)]))
    decreases |s.channel|
  {
    var steps := Repeat<Step<T>>(|s.channel|, DrainRecv) + [Finish(w)];
    if s.channel == [] {
      assert steps == [Finish(w)] && s.batch + s.channel == s.batch;
      OneStepRun(cfg, s, Finish(w));
      assert s.flushes + [] == s.flushes;
    } else {
      assert steps[1..] == Repeat<Step<T>>(|s.channel| - 1, DrainRecv) + [Finish(w)];
      Drains(cfg, Take(s), w);
      assert Take(s).batch + Take(s).channel == s.batch + s.channel;
    }
  }

  /** Stop does stop a running loop: there is a run in which it leaves with batch and channel flushed
      as one. */
  lemma StopDrains<T>(cfg: Config, s: State<T>, w: bool) returns (steps: seq<Step<T>>)
    requires s.phase == Running && !s.stopped
    ensures ValidRun(cfg, s, steps) && |steps| == |s.channel| + 3 && steps[0] == Stop && Added(steps) == []
    ensures var rest := s.batch + s.channel;
            After(cfg, s, steps)
            == s.(phase := Finished, stopped := true, channel := [], batch := [],
                  flushes := s.flushes + (if rest == [] then [] else [Flush(Drained, rest, w)]))
  {
    var stopped := s.(stopped := true);
    var draining := stopped.(phase := Draining);
    var tail := Repeat(|s.channel|, DrainRecv) + [Finish(w)];
    Drains(cfg, draining, w);
    OneStepRun(cfg, stopped, EnterDrain);
    RunAppend(cfg, stopped, [EnterDrain], tail);
    OneStepRun(cfg, s, Stop);
    RunAppend(cfg, s, [Stop], [EnterDrain] + tail);
    steps := [Stop] + ([EnterDrain] + tail);
    NothingAdded(steps);
  }

  lemma {:induction false} NothingAdded<T>(steps: seq<Step<T>>)
    requires forall i | 0 <= i < |steps| :: !steps[i].Add?
    ensures Added(steps) == []
  {
    if steps != [] {
      NothingAdded(steps[1..]);
    }
  }

  // ---------- outcomes of writes ----------

  /** A step that flushes carries the outcome of its write. */
  function OutcomeOf<T>(s: State<T>, cfg: Config, step: Step<T>): seq<bool> {
    match step
    case Recv(w) => if |s.batch| + 1 >= cfg.size then [w] else []
    case Tick(w) => if s.batch != [] then [w] else []
    case Finish(w) => if s.batch != [] then [w] else []
    case _ => []
  }

  /** The outcomes of the writes that a run makes. */
  function Outcomes<T>(cfg: Config, s: State<T>, steps: seq<Step<T>>): seq<bool>
    requires ValidRun(cfg, s, steps)
    decreases |steps|
  {
    if steps == [] then [] else OutcomeOf(s, cfg, steps[0]) + Outcomes(cfg, Apply(cfg, s, steps[0]), steps[1..])
  }

  function Written<T>(flushes: seq<Flush<T>>): seq<bool> {
    if flushes == [] then [] else Written(flushes[..|flushes| - 1]) + [flushes[|flushes| - 1].written]
  }

  lemma StepRecordsOutcome<T>(cfg: Config, s: State<T>, step: Step<T>)
    requires Enabled(s, step)
    ensures Written(Apply(cfg, s, step).flushes) == Written(s.flushes) + OutcomeOf(s, cfg, step)
  {
    var t := Apply(cfg, s, step);
    assert Written(s.flushes) + [] == Written(s.flushes);
    if t.flushes != s.flushes {
      assert t.flushes[..|s.flushes|] == s.flushes;
    }
  }

  /** The flushes of a run record the outcomes of its own writes, in order. */
  lemma {:induction false} OutcomesRecorded<T>(cfg: Config, s: State<T>, steps: seq<Step<T>>)
    requires ValidRun(cfg, s, steps)
    ensures Written(After(cfg, s, steps).flushes) == Written(s.flushes) + Outcomes(cfg, s, steps)
    decreases |steps|
  {
    if steps == [] {
      assert Written(s.flushes) + [] == Written(s.flushes);
    } else {
      AfterFirst(cfg, s, steps);
      hide Written, OutcomeOf, Apply, Enabled, ValidRun, After;
      StepRecordsOutcome(cfg, s, steps[0]);
      OutcomesRecorded(cfg, Apply(cfg, s, steps[0]), steps[1..]);
    }
  }

  /** Every write that the schedule makes has this outcome. */
  ghost predicate Writes<T>(steps: seq<Step<T>>, w: bool) {
    forall i | 0 <= i < |steps| ::
      match steps[i]
      case Recv(x) => x == w
      case Tick(x) => x == w
      case Finish(x) => x == w
      case _ => true
  }

  lemma StepWrites<T>(cfg: Config, s: State<T>, step: Step<T>, w: bool) returns (flushed: seq<T>)
    requires Enabled(s, step) && Writes([step], w)
    ensures var t := Apply(cfg, s, step);
            && Delivered(t.flushes) == Delivered(s.flushes) + flushed
            && Stored(t.flushes) == Stored(s.flushes) + (if w then flushed else [])
  {
    var t := Apply(cfg, s, step);
    assert [step][0] == step;
    hide Delivered, Stored;
    if t.flushes == s.flushes {
      flushed := [];
      assert Delivered(s.flushes) + [] == Delivered(s.flushes) && Stored(s.flushes) + [] == Stored(s.flushes);
    } else {
      var f := t.flushes[|s.flushes|];
      assert t.flushes == s.flushes + [f];
      DeliveredSnoc(s.flushes, f);
      flushed := f.events;
    }
  }

  lemma Grows<T>(a: seq<T>, b: seq<T>, c: seq<T>, x: seq<T>, y: seq<T>)
    requires b == a + x && c == b + y
    ensures c == a + (x + y)
  {
  }

  /** While writes succeed the store grows by exactly what is flushed; while they fail it stays. */
  lemma {:induction false} StoreFollowsWrites<T>(cfg: Config, s: State<T>, steps: seq<Step<T>>, w: bool)
      returns (flushed: seq<T>)
    requires ValidRun(cfg, s, steps) && Writes(steps, w)
    ensures var t := After(cfg, s, steps);
            && Delivered(t.flushes) == Delivered(s.flushes) + flushed
            && Stored(t.flushes) == Stored(s.flushes) + (if w then flushed else [])
    decreases |steps|
  {
    hide Delivered, Stored;
    if steps == [] {
      flushed := [];
      assert Delivered(s.flushes) + [] == Delivered(s.flushes) && Stored(s.flushes) + [] == Stored(s.flushes);
    } else {
      AfterFirst(cfg, s, steps);
      hide Apply, Enabled, ValidRun, After;
      var next := Apply(cfg, s, steps[0]);
      assert Writes([steps[0]], w) && Writes(steps[1..], w) by { WritesSplit(steps, w); }
      var first := StepWrites(cfg, s, steps[0], w);
      var rest := StoreFollowsWrites(cfg, next, steps[1..], w);
      flushed := first + rest;
      var t := After(cfg, s, steps);
      Grows(Delivered(s.flushes), Delivered(next.flushes), Delivered(t.flushes), first, rest);
      Grows(Stored(s.flushes), Stored(next.flushes), Stored(t.flushes),
            if w then first else [], if w then rest else []);
    }
  }

  lemma NothingFlushed<T>()
    ensures Delivered<T>([]) == [] && Stored<T>([]) == []
  {
  }

  lemma WritesSplit<T>(steps: seq<Step<T>>, w: bool)
    requires steps != [] && Writes(steps, w)
    ensures Writes([steps[0]], w) && Writes(steps[1..], w)
  {
    forall i | 0 <= i < |steps[1..]| ensures steps[1..][i] == steps[i + 1] {
    }
  }

  /** When nothing is added after Stop, the loop exits with every accepted event flushed, and the
      final flush fits one batch and one channel. */
  lemma ShutdownComplete<T>(cfg: Config, s: State<T>, steps: seq<Step<T>>)
    requires cfg.size >= 1 && Inv(cfg, s) && s.phase == Running && s.stopped
    requires ValidRun(cfg, s, steps) && Added(steps) == []
    requires After(cfg, s, steps).phase == Finished
    ensures var t := After(cfg, s, steps);
            && Delivered(t.flushes) == s.accepted
            && (forall i | 0 <= i < |t.flushes| && t.flushes[i].trigger == Drained ::
                  |t.flushes[i].events| <= cfg.size - 1 + cfg.capacity)
  {
    RunKeepsInv(cfg, s, steps);
    QuietRun(cfg, s, steps);
    var t := After(cfg, s, steps);
    assert Delivered(t.flushes) + t.batch + t.channel == Delivered(t.flushes);
    forall i | 0 <= i < |t.flushes| && t.flushes[i].trigger == Drained
      ensures |t.flushes[i].events| <= cfg.size - 1 + cfg.capacity
    {
      assert WellShaped(cfg, t.flushes[i], t.late);
    }
  }

  /** A batcher that dropped nothing, was stopped after the last Add and whose writes all succeed has
      stored exactly the added events, in order; one whose writes all fail has stored none. */
  lemma EverythingStored<T>(cfg: Config, a: seq<Step<T>>, b: seq<Step<T>>, w: bool)
    requires cfg.size >= 1 && ValidRun(cfg, Initial<T>(), a) && Writes(a, w) && Writes(b, w)
    requires var s := After(cfg, Initial<T>(), a);
             && s.phase == Running && s.stopped
             && ValidRun(cfg, s, b) && Added(b) == []
             && var t := After(cfg, s, b);
                t.phase == Finished && t.dropped == 0
    ensures Stored(After(cfg, After(cfg, Initial<T>(), a), b).flushes) == if w then Added(a) else []
  {
    hide ValidRun, After, Added, Writes, Inv, Delivered, Stored;
    var s := After(cfg, Initial<T>(), a);
    InitialInv<T>(cfg);
    RunKeepsInv(cfg, Initial<T>(), a);
    ShutdownComplete(cfg, s, b);
    RunKeepsInv(cfg, s, b);
    var first := StoreFollowsWrites(cfg, Initial<T>(), a, w);
    var second := StoreFollowsWrites(cfg, s, b, w);
    AddsAccounted(cfg, Initial<T>(), a);
    DroppedGrows(cfg, s, b);
    assert Initial<T>().accepted + Added(a) == Added(a);
    NothingFlushed<T>();
    assert [] + first + second == first + second;
  }

  /** After the loop has exited, an accepted event stays in the channel for ever. */
  lemma {:induction false} FinishedIsFinal<T>(cfg: Config, s: State<T>, steps: seq<Step<T>>)
    requires s.phase == Finished && s.stopped && ValidRun(cfg, s, steps)
    ensures var t := After(cfg, s, steps);
            && t.phase == Finished && t.flushes == s.flushes && t.batch == s.batch
            && s.channel <= t.channel && s.accepted <= t.accepted
            && t.channel[|s.channel|..] == t.accepted[|s.accepted|..]
    decreases |steps|
  {
    if steps != [] {
      FinishedIsFinal(cfg, Apply(cfg, s, steps[0]), steps[1..]);
    }
  }

  /** So once the loop has exited with an empty channel, all accepted events are flushed if and only
      if none was accepted since. */
  lemma DrainedIffNothingLate<T>(cfg: Config, s: State<T>, steps: seq<Step<T>>)
    requires cfg.size >= 1 && Inv(cfg, s) && s.phase == Finished && s.channel == []
    requires ValidRun(cfg, s, steps)
    ensures var t := After(cfg, s, steps);
            Delivered(t.flushes) == t.accepted <==> t.accepted == s.accepted
  {
    var t := After(cfg, s, steps);
    RunKeepsInv(cfg, s, steps);
    FinishedIsFinal(cfg, s, steps);
    assert Delivered(s.flushes) + s.batch + s.channel == Delivered(s.flushes);
  }
}
