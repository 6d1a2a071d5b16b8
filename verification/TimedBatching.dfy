/** The batcher with a clock and a ticker: no event waits in the batch longer than one interval plus
    the time the loop takes to notice a tick. Flushes take no time. */
module TimedBatching {
  import opened Sequences
  import opened Batching

  /** `interval` is the ticker's period; a tick is received at most `latency` after it fires. */
  datatype Timing = Timing(interval: nat, latency: nat)

  /** arrivals[i] is when batch[i] was received; the ticker fires at nextTick; a tick that has fired
      and is not yet received waits in the ticker's channel, which holds one. */
  datatype Timed<+T> = Timed(core: State<T>, arrivals: seq<int>, now: int, nextTick: int, fired: Option<int>)

  datatype TimedStep<+T> = Advance(d: nat) | Fire | Act(step: Step<T>)

  function Start<T>(tm: Timing): Timed<T> {
    Timed(Initial(), [], 0, tm.interval, None)
  }

  /** Time passes neither the next tick nor the moment a fired tick must have been received. */
  predicate MayAdvance<T>(tm: Timing, s: Timed<T>, d: nat) {
    && s.now + d <= s.nextTick
    && (s.fired.Some? ==> s.now + d <= s.fired.value + tm.latency)
  }

  predicate TimedEnabled<T>(tm: Timing, s: Timed<T>, step: TimedStep<T>) {
    match step
    case Advance(d) => s.core.phase == Running && MayAdvance(tm, s, d)
    case Fire => s.core.phase == Running && s.now == s.nextTick
    case Act(a) => Enabled(s.core, a) && (a.Tick? ==> s.fired.Some?)
  }

  /** A size flush resets the ticker, which also discards a tick that is waiting. */
  function TimedApply<T>(cfg: Config, tm: Timing, s: Timed<T>, step: TimedStep<T>): Timed<T>
    requires TimedEnabled(tm, s, step)
  {
    match step
    case Advance(d) => s.(now := s.now + d)
    case Fire => s.(nextTick := s.nextTick + tm.interval,
                    fired := if s.fired.Some? then s.fired else Some(s.now))
    case Act(a) =>
      var core := Apply(cfg, s.core, a);
      match a
      case Recv(_) =>
        if core.batch == [] then
          s.(core := core, arrivals := [], nextTick := s.now + tm.interval, fired := None)
        else s.(core := core, arrivals := s.arrivals + [s.now])
      case Tick(_) => s.(core := core, arrivals := [], fired := None)
      case DrainRecv => s.(core := core, arrivals := s.arrivals + [s.now])
      case Finish(_) => s.(core := core, arrivals := [])
      case _ => s.(core := core)
  }

  predicate TimedValidRun<T>(cfg: Config, tm: Timing, s: Timed<T>, steps: seq<TimedStep<T>>)
    decreases |steps|
  {
    steps == [] ||
    (TimedEnabled(tm, s, steps[0]) && TimedValidRun(cfg, tm, TimedApply(cfg, tm, s, steps[0]), steps[1..]))
  }

  function TimedAfter<T>(cfg: Config, tm: Timing, s: Timed<T>, steps: seq<TimedStep<T>>): Timed<T>
    requires TimedValidRun(cfg, tm, s, steps)
    decreases |steps|
  {
    if steps == [] then s else TimedAfter(cfg, tm, TimedApply(cfg, tm, s, steps[0]), steps[1..])
  }

  /** The waiting tick, or else the next one, comes within an interval of every arrival. */
  ghost predicate TimedInv<T>(tm: Timing, s: Timed<T>) {
    && |s.arrivals| == |s.core.batch|
    && (s.core.phase == Running ==>
          && s.now <= s.nextTick <= s.now + tm.interval
          && (s.fired.Some? ==> s.fired.value <= s.now <= s.fired.value + tm.latency)
          && forall i | 0 <= i < |s.arrivals| ::
               && s.arrivals[i] <= s.now
               && (if s.fired.Some? then s.fired.value else s.nextTick) <= s.arrivals[i] + tm.interval)
  }

  lemma TimedStepKeepsInv<T>(cfg: Config, tm: Timing, s: Timed<T>, step: TimedStep<T>)
    requires TimedInv(tm, s) && TimedEnabled(tm, s, step)
    ensures TimedInv(tm, TimedApply(cfg, tm, s, step))
  {
  }

  lemma {:induction false} TimedRunKeepsInv<T>(cfg: Config, tm: Timing, s: Timed<T>, steps: seq<TimedStep<T>>)
    requires TimedInv(tm, s) && TimedValidRun(cfg, tm, s, steps)
    ensures TimedInv(tm, TimedAfter(cfg, tm, s, steps))
    decreases |steps|
  {
    if steps != [] {
      hide TimedInv, TimedEnabled, TimedApply;
      TimedStepKeepsInv(cfg, tm, s, steps[0]);
      TimedRunKeepsInv(cfg, tm, TimedApply(cfg, tm, s, steps[0]), steps[1..]);
    }
  }

  /** In every reachable state of the running loop, each event of the current batch was received at
      most interval + latency ago; with prompt ticks, at most one interval. */
  lemma BoundedDelay<T>(cfg: Config, tm: Timing, steps: seq<TimedStep<T>>, i: nat)
    requires TimedValidRun(cfg, tm, Start<T>(tm), steps)
    ensures var s := TimedAfter(cfg, tm, Start<T>(tm), steps);
            s.core.phase == Running && i < |s.core.batch| ==>
              |s.arrivals| == |s.core.batch| && 0 <= s.now - s.arrivals[i] <= tm.interval + tm.latency
  {
    TimedRunKeepsInv(cfg, tm, Start<T>(tm), steps);
  }

  function Elapsed<T>(steps: seq<TimedStep<T>>): nat {
    if steps == [] then 0 else (if steps[0].Advance? then steps[0].d else 0) + Elapsed(steps[1..])
  }

  /** The clock shows the time that has passed. */
  lemma {:induction false} ClockCounts<T>(cfg: Config, tm: Timing, s: Timed<T>, steps: seq<TimedStep<T>>)
    requires TimedValidRun(cfg, tm, s, steps)
    ensures TimedAfter(cfg, tm, s, steps).now == s.now + Elapsed(steps)
    decreases |steps|
  {
    if steps != [] {
      ClockCounts(cfg, tm, TimedApply(cfg, tm, s, steps[0]), steps[1..]);
    }
  }

  function Fires<T>(steps: seq<TimedStep<T>>): nat {
    if steps == [] then 0 else (if steps[0].Fire? then 1 else 0) + Fires(steps[1..])
  }

  function SizeFlushes<T>(flushes: seq<Flush<T>>): nat {
    if flushes == [] then 0
    else SizeFlushes(flushes[..|flushes| - 1]) + (if flushes[|flushes| - 1].trigger == SizeReached then 1 else 0)
  }

  lemma SizeFlushesSnoc<T>(flushes: seq<Flush<T>>, f: Flush<T>)
    ensures SizeFlushes(flushes + [f]) == SizeFlushes(flushes) + (if f.trigger == SizeReached then 1 else 0)
  {
    assert (flushes + [f])[..|flushes|] == flushes;
  }

  lemma StepTicks<T>(cfg: Config, tm: Timing, s: Timed<T>, step: TimedStep<T>)
    requires cfg.size >= 1 && TimedEnabled(tm, s, step)
    ensures var t := TimedApply(cfg, tm, s, step);
            && SizeFlushes(t.core.flushes) >= SizeFlushes(s.core.flushes)
            && t.nextTick == (if SizeFlushes(t.core.flushes) > SizeFlushes(s.core.flushes) then s.now + tm.interval
                              else if step.Fire? then s.nextTick + tm.interval else s.nextTick)
  {
    hide SizeFlushes;
    var t := TimedApply(cfg, tm, s, step);
    if t.core.flushes != s.core.flushes {
      SizeFlushesSnoc(s.core.flushes, t.core.flushes[|s.core.flushes|]);
    }
  }

  lemma {:induction false} SizeFlushesGrow<T>(cfg: Config, tm: Timing, s: Timed<T>, steps: seq<TimedStep<T>>)
    requires cfg.size >= 1 && TimedValidRun(cfg, tm, s, steps)
    ensures SizeFlushes(TimedAfter(cfg, tm, s, steps).core.flushes) >= SizeFlushes(s.core.flushes)
    decreases |steps|
  {
    if steps != [] {
      StepTicks(cfg, tm, s, steps[0]);
      SizeFlushesGrow(cfg, tm, TimedApply(cfg, tm, s, steps[0]), steps[1..]);
    }
  }

  /** Between size flushes the ticker fires at whole intervals, whether or not its ticks are received;
      tick flushes do not move it. */
  lemma {:induction false} TicksArePeriodic<T>(cfg: Config, tm: Timing, s: Timed<T>, steps: seq<TimedStep<T>>)
    requires cfg.size >= 1 && TimedValidRun(cfg, tm, s, steps)
    requires SizeFlushes(TimedAfter(cfg, tm, s, steps).core.flushes) == SizeFlushes(s.core.flushes)
    ensures TimedAfter(cfg, tm, s, steps).nextTick == s.nextTick + Fires(steps) * tm.interval
    decreases |steps|
  {
    if steps != [] {
      hide TimedApply, TimedEnabled;
      var next := TimedApply(cfg, tm, s, steps[0]);
      StepTicks(cfg, tm, s, steps[0]);
      SizeFlushesGrow(cfg, tm, next, steps[1..]);
      TicksArePeriodic(cfg, tm, next, steps[1..]);
      assert (1 + Fires(steps[1..])) * tm.interval == tm.interval + Fires(steps[1..]) * tm.interval;
    }
  }

  /** From the start, a batcher that has not filled a batch ticks at every multiple of the interval. */
  lemma TicksFromStart<T>(cfg: Config, tm: Timing, steps: seq<TimedStep<T>>)
    requires cfg.size >= 1 && TimedValidRun(cfg, tm, Start<T>(tm), steps)
    requires SizeFlushes(TimedAfter(cfg, tm, Start<T>(tm), steps).core.flushes) == 0
    ensures TimedAfter(cfg, tm, Start<T>(tm), steps).nextTick == (Fires(steps) + 1) * tm.interval
    ensures TimedAfter(cfg, tm, Start<T>(tm), steps).now == Elapsed(steps)
  {
    TicksArePeriodic(cfg, tm, Start<T>(tm), steps);
    ClockCounts(cfg, tm, Start<T>(tm), steps);
  }

  lemma {:induction false} TimePasses<T>(cfg: Config, tm: Timing, s: Timed<T>, steps: seq<TimedStep<T>>)
    requires TimedValidRun(cfg, tm, s, steps)
    ensures s.now <= TimedAfter(cfg, tm, s, steps).now
    decreases |steps|
  {
    if steps != [] {
      TimePasses(cfg, tm, TimedApply(cfg, tm, s, steps[0]), steps[1..]);
    }
  }

  /** With no tick waiting, none is received before the next one is due. */
  lemma {:induction false} NoTickBeforeDue<T>(cfg: Config, tm: Timing, s: Timed<T>, steps: seq<TimedStep<T>>)
    requires TimedInv(tm, s) && TimedValidRun(cfg, tm, s, steps) && s.fired == None
    requires TimedAfter(cfg, tm, s, steps).now < s.nextTick
    ensures forall i | 0 <= i < |steps| && steps[i].Act? :: !steps[i].step.Tick?
    decreases |steps|
  {
    if steps != [] {
      var next := TimedApply(cfg, tm, s, steps[0]);
      TimePasses(cfg, tm, next, steps[1..]);
      TimedStepKeepsInv(cfg, tm, s, steps[0]);
      NoTickBeforeDue(cfg, tm, next, steps[1..]);
      forall i | 0 <= i < |steps| && steps[i].Act? ensures !steps[i].step.Tick? {
        if i > 0 {
          assert steps[1..][i - 1] == steps[i];
        }
      }
    }
  }

  lemma {:induction false} NoTickNoTickFlush<T>(cfg: Config, tm: Timing, s: Timed<T>, steps: seq<TimedStep<T>>)
    requires TimedValidRun(cfg, tm, s, steps)
    requires forall i | 0 <= i < |steps| && steps[i].Act? :: !steps[i].step.Tick?
    ensures var flushes := TimedAfter(cfg, tm, s, steps).core.flushes;
            && s.core.flushes <= flushes
            && forall i | |s.core.flushes| <= i < |flushes| :: flushes[i].trigger != Ticked
    decreases |steps|
  {
    if steps != [] {
      NoTickNoTickFlush(cfg, tm, TimedApply(cfg, tm, s, steps[0]), steps[1..]);
    }
  }

  /** So within an interval after a size flush there is no tick flush, even if a tick had fired and
      was waiting, or was about to fire, when the batch filled up. */
  lemma QuietAfterSizeFlush<T>(cfg: Config, tm: Timing, s: Timed<T>, written: bool, steps: seq<TimedStep<T>>)
    requires cfg.size >= 1 && TimedInv(tm, s) && TimedEnabled(tm, s, Act(Recv(written)))
    requires var t := TimedApply(cfg, tm, s, Act(Recv(written)));
             && |t.core.flushes| > |s.core.flushes|
             && TimedValidRun(cfg, tm, t, steps) && TimedAfter(cfg, tm, t, steps).now < s.now + tm.interval
    ensures var t := TimedApply(cfg, tm, s, Act(Recv(written)));
            var flushes := TimedAfter(cfg, tm, t, steps).core.flushes;
            forall i | |t.core.flushes| <= i < |flushes| :: flushes[i].trigger != Ticked
  {
    var t := TimedApply(cfg, tm, s, Act(Recv(written)));
    TimedStepKeepsInv(cfg, tm, s, Act(Recv(written)));
    NoTickBeforeDue(cfg, tm, t, steps);
    NoTickNoTickFlush(cfg, tm, t, steps);
  }

  /** The bound is not bought with a stopped clock: when time may not pass, a tick is due. */
  lemma ClockNeverStuck<T>(cfg: Config, tm: Timing, s: Timed<T>)
    requires TimedInv(tm, s) && s.core.phase == Running
    ensures TimedEnabled(tm, s, Advance(1)) || TimedEnabled(tm, s, Fire) || TimedEnabled(tm, s, Act(Tick(true)))
  {
  }

  // ---------- the clock adds nothing but restrictions ----------

  function Untimed<T>(steps: seq<TimedStep<T>>): seq<Step<T>> {
    if steps == [] then [] else (if steps[0].Act? then [steps[0].step] else []) + Untimed(steps[1..])
  }

  /** Every timed run is a run of the step system once time is erased, so that all its invariants
      hold here as well. */
  lemma {:induction false} TimedRefinesUntimed<T>(cfg: Config, tm: Timing, s: Timed<T>, steps: seq<TimedStep<T>>)
    requires TimedValidRun(cfg, tm, s, steps)
    ensures ValidRun(cfg, s.core, Untimed(steps))
    ensures After(cfg, s.core, Untimed(steps)) == TimedAfter(cfg, tm, s, steps).core
    decreases |steps|
  {
    if steps != [] {
      var next := TimedApply(cfg, tm, s, steps[0]);
      TimedRefinesUntimed(cfg, tm, next, steps[1..]);
      var tail := Untimed(steps[1..]);
      if steps[0].Act? {
        assert Untimed(steps)[1..] == tail;
      } else {
        assert Untimed(steps) == tail;
      }
    }
  }
}
