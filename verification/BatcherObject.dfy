/** The batcher as an object: a batch slice over a backing array that is appended to, flushed,
    truncated and reused in place. Each method takes the step of the step system that it models. */
module BatcherObject {
  import opened Sequences
  import opened Batching

  class Batcher<T(0)> {
    const size: nat
    var phase: Phase
    var stopped: bool
    var channel: seq<T>
    // The batch is slots[..length].
    var slots: array<T>
    var length: nat
    // The rows that the store has taken.
    var store: seq<T>
    ghost var flushes: seq<Flush<T>>
    ghost var accepted: seq<T>
    ghost var dropped: nat
    ghost var late: nat

    /** The channel holds ten batches. */
    function Settings(): Config {
      Config(size, size * 10)
    }

    /** The store holds what the flushes delivered at their time; later writes to the backing array
        do not change it. */
    ghost predicate Valid()
      reads this
    {
      size >= 1 && length <= slots.Length && store == Stored(flushes)
    }

    ghost function View(): State<T>
      reads this, slots
      requires Valid()
    {
      State(phase, stopped, channel, slots[..length], flushes, accepted, dropped, late)
    }

    constructor (size: nat)
      requires size >= 1
      ensures Valid() && fresh(slots)
      ensures this.size == size && View() == Initial()
    {
      this.size := size;
      phase, stopped, channel := Running, false, [];
      slots, length, store := new T[size], 0, [];
      flushes, accepted, dropped, late := [], [], 0, 0;
    }

    /** Never blocks: a full channel drops the event. */
    method AddOne(e: T)
      requires Valid()
      modifies this
      ensures Valid() && slots == old(slots)
      ensures View() == Apply(Settings(), old(View()), Add(e))
      ensures channel == old(channel) + (if old(|channel|) < 10 * size then [e] else [])
    {
      if |channel| < size * 10 {
        channel := channel + [e];
        accepted := accepted + [e];
        late := if phase == Running then late else late + 1;
      } else {
        dropped := dropped + 1;
      }
    }

    /** append(batch, e): in place while there is room, else in a new array of twice the size. */
    method Append(e: T)
      requires Valid()
      modifies this, slots
      ensures Valid() && (slots == old(slots) || fresh(slots))
      ensures View() == old(View()).(batch := old(slots[..length]) + [e])
    {
      if length == slots.Length {
        var bigger := new T[2 * length + 1];
        for i := 0 to length
          invariant fresh(bigger) && slots == old(slots) && slots[..] == old(slots[..])
          invariant Valid() && View() == old(View())
          invariant forall j | 0 <= j < i :: bigger[j] == slots[j]
        {
          bigger[i] := slots[i];
        }
        slots := bigger;
      }
      slots[length] := e;
      length := length + 1;
    }

    /** Copies the batch row by row and sends it. A failure at row `failAt`, or at the send when
        there is no such row, leaves the store as it was. */
    method WriteBatch(failAt: Option<nat>) returns (written: bool)
      requires Valid()
      modifies this`store
      ensures written == failAt.None?
      ensures store == old(store) + (if written then slots[..length] else [])
    {
      var rows: seq<T> := [];
      for i := 0 to length
        invariant rows == slots[..i]
        invariant failAt.Some? ==> failAt.value >= i
      {
        if failAt == Some(i) {
          return false;
        }
        rows := rows + [slots[i]];
      }
      if failAt.Some? {
        return false;
      }
      store := store + rows;
      return true;
    }

    /** Hands the batch to the writer and truncates it; the array stays for the next batch. */
    method FlushAndReuse(trigger: Trigger, failAt: Option<nat>)
      requires Valid()
      modifies this
      ensures Valid() && slots == old(slots)
      ensures View() == FlushBatch(old(View()), trigger, failAt.None?)
    {
      var written := WriteBatch(failAt);
      DeliveredSnoc(flushes, Flush(trigger, slots[..length], written));
      flushes := flushes + [Flush(trigger, slots[..length], written)];
      length := 0;
    }

    /** The receive case of the select statement. */
    method Receive(failAt: Option<nat>)
      requires Valid() && Enabled(View(), Recv(failAt.None?))
      modifies this, slots
      ensures Valid() && (slots == old(slots) || fresh(slots))
      ensures View() == Apply(Settings(), old(View()), Recv(failAt.None?))
    {
      var e := channel[0];
      channel := channel[1..];
      Append(e);
      if length >= size {
        FlushAndReuse(SizeReached, failAt);
      }
    }

    /** The ticker case. */
    method OnTick(failAt: Option<nat>)
      requires Valid() && Enabled(View(), Tick(failAt.None?))
      modifies this
      ensures Valid() && slots == old(slots)
      ensures View() == Apply(Settings(), old(View()), Tick(failAt.None?))
    {
      if length > 0 {
        FlushAndReuse(Ticked, failAt);
      }
    }

    /** The drain loop's receive case. */
    method DrainReceive()
      requires Valid() && Enabled(View(), DrainRecv)
      modifies this, slots
      ensures Valid() && (slots == old(slots) || fresh(slots))
      ensures View() == Apply(Settings(), old(View()), DrainRecv)
    {
      var e := channel[0];
      channel := channel[1..];
      Append(e);
    }

    /** The drain loop's default case: flush the rest and leave. */
    method DrainDefault(failAt: Option<nat>)
      requires Valid() && Enabled(View(), Finish(failAt.None?))
      modifies this
      ensures Valid() && slots == old(slots)
      ensures View() == Apply(Settings(), old(View()), Finish(failAt.None?))
    {
      if length > 0 {
        FlushAndReuse(Drained, failAt);
      }
      phase := Finished;
    }

    method TakeStep(step: Step<T>, failRow: nat)
      requires Valid() && Enabled(View(), step)
      modifies this, slots
      ensures Valid() && (slots == old(slots) || fresh(slots))
      ensures View() == Apply(Settings(), old(View()), step)
    {
      match step {
        case Add(e) => AddOne(e);
        case Recv(w) => Receive(if w then None else Some(failRow));
        case Tick(w) => OnTick(if w then None else Some(failRow));
        case Stop => stopped := true;
        case EnterDrain => phase := Draining;
        case DrainRecv => DrainReceive();
        case Finish(w) => DrainDefault(if w then None else Some(failRow));
      }
    }

    /** Under any schedule of producers, ticks, stop and the loop's own steps, the object with its
        one reused array goes through the states of the step system, and its store holds exactly
        what that system's flushes wrote. failRow(n) is the row at which the n-th step's write
        fails, if it fails. */
    method Run(schedule: seq<Step<T>>, failRow: nat -> nat)
      requires Valid() && ValidRun(Settings(), View(), schedule)
      modifies this, slots
      ensures Valid() && (slots == old(slots) || fresh(slots))
      ensures View() == After(Settings(), old(View()), schedule)
      ensures store == Stored(After(Settings(), old(View()), schedule).flushes)
    {
      for n := 0 to |schedule|
        invariant Valid() && (slots == old(slots) || fresh(slots))
        invariant ValidRun(Settings(), View(), schedule[n..])
        invariant After(Settings(), View(), schedule[n..]) == After(Settings(), old(View()), schedule)
      {
        assert schedule[n..][1..] == schedule[n + 1..];
        TakeStep(schedule[n], failRow(n));
      }
    }
  }
}
