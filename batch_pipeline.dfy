/**
 * The batch pipeline object of internal/batch/batch.go.
 *
 * The buffer is a Go slice: a backing array `data` whose first `len`
 * elements are the pending items.  Its capacity starts at maxSize, grows
 * when an append finds it full, and is kept when a successful flush
 * empties the buffer.  Add, ExecuteAndFlush and Tick are each one section
 * the source runs under the pipeline's mutex, so they are atomic here;
 * Append is the first part of Add's section, Stop touches no state the
 * mutex guards, and FlushAfterDeadline runs one Tick section per elapsed
 * wait.  Add, ExecuteAndFlush, Tick and Stop move the abstract state
 * exactly as the BatchSpec function of the same name prescribes; the
 * constructor yields Init and FlushAfterDeadline moves as Listen.  Append
 * only states the new slice contents (Add records the item in the history
 * right after it).  The invariant Valid() keeps conservation of items.
 */
module Batch {
  import opened BatchSpec

  class BatchPipeline<T(0)> {
    const maxSize: int
    var data: array<T>
    var len: nat
    // whether the background deadline loop is still running
    var timerRunning: bool

    // history: every item ever added, every callback invocation
    ghost var added: seq<T>
    ghost var calls: seq<Call<T>>

    /** The abstract state of the pipeline. */
    ghost function Model(): State<T>
      reads this, data
      requires len <= data.Length
    {
      State(maxSize, data[..len], timerRunning, added, calls)
    }

    ghost predicate Valid()
      reads this, data
    {
      len <= data.Length && maxSize <= data.Length && Conserved(Model())
    }

    /** The slice is made with length 0 and capacity maxSize; Go's make
        panics on a negative capacity, so callers must not pass one.  The
        background loop starts running. */
    constructor (maxSize: int)
      requires 0 <= maxSize
      ensures Valid() && Model() == Init(maxSize)
      ensures fresh(data) && data.Length == maxSize
    {
      this.maxSize := maxSize;
      data := new T[maxSize];
      len := 0;
      timerRunning := true;
      added := [];
      calls := [];
    }

    /** Go's append: write the item after the last pending one, first moving
        the contents to a larger backing array when the current one is full. */
    method Append(item: T)
      requires len <= data.Length && maxSize <= data.Length
      modifies this`data, this`len, data
      ensures len <= data.Length && maxSize <= data.Length
      ensures data[..len] == old(data[..len]) + [item]
      ensures old(len) < old(data.Length) ==> data == old(data)
      ensures data == old(data) || fresh(data)
    {
      if len == data.Length {
        var grown := new T[2 * data.Length + 1];
        var i := 0;
        while i < len
          modifies grown
          invariant 0 <= i <= len
          invariant grown[..i] == data[..i]
        {
          grown[i] := data[i];
          i := i + 1;
        }
        assert grown[..len] == data[..len];
        data := grown;
      }
      data[len] := item;
      len := len + 1;
    }

    /** Appends the item and, if the buffer has reached maxSize, flushes it
        with the callback's outcome `ok`.  The outcome is not returned. */
    method Add(item: T, ok: bool)
      requires Valid()
      modifies this, data
      ensures Valid()
      ensures Model() == BatchSpec.Add(old(Model()), item, ok)
      ensures data == old(data) || fresh(data)
    {
      ghost var appended := Model().(buffer := data[..len] + [item], added := added + [item]);
      assert Conserved(appended) by {
        assert Delivered(appended.calls) + appended.buffer
            == (Delivered(calls) + data[..len]) + [item];
      }
      Append(item);
      added := added + [item];
      assert Model() == appended;
      if len >= maxSize {
        var err := ExecuteAndFlush(SizeReached, ok);
      }
    }

    /** Hands the pending items to the callback, whose outcome is `ok`;
        on success the buffer is emptied and its backing array kept. */
    method ExecuteAndFlush(ghost trigger: Trigger, ok: bool) returns (err: bool)
      requires Valid()
      modifies this`len, this`calls
      ensures Valid()
      ensures Model() == BatchSpec.ExecuteAndFlush(old(Model()), trigger, ok)
      ensures err == !ok
    {
      ghost var before := Model();
      ghost var after := BatchSpec.ExecuteAndFlush(before, trigger, ok);
      FlushDelivers(before, trigger, ok);
      calls := calls + [Call(trigger, data[..len], ok)];
      if ok {
        len := 0;
        assert data[..len] == [];
      }
      assert Model() == after;
      err := !ok;
    }

    /** One iteration of the background loop in which the wait elapsed. */
    method Tick(ok: bool)
      requires Valid()
      modifies this`len, this`calls
      ensures Valid()
      ensures Model() == BatchSpec.Tick(old(Model()), ok)
    {
      if timerRunning {
        var err := ExecuteAndFlush(DeadlineElapsed, ok);
      }
    }

    /** One iteration of the background loop in which the shutdown signal
        arrived: the loop ends, nothing is flushed. */
    method Stop()
      requires Valid()
      modifies this`timerRunning
      ensures Valid()
      ensures Model() == BatchSpec.Stop(old(Model()))
    {
      timerRunning := false;
    }

    /** The background loop, run on a finite supply of signals with no
        producer in between: ticks flush, the first shutdown returns. */
    method FlushAfterDeadline(signals: seq<Signal>)
      requires Valid()
      modifies this`len, this`calls, this`timerRunning
      ensures Valid()
      ensures Model() == Listen(old(Model()), signals)
    {
      var i := 0;
      while i < |signals|
        invariant 0 <= i <= |signals|
        invariant Valid()
        invariant Listen(Model(), signals[i..]) == Listen(old(Model()), signals)
      {
        assert signals[i..][1..] == signals[i + 1..];
        match signals[i]
        case Shutdown =>
          Stop();
          return;
        case Elapsed(ok) =>
          Tick(ok);
          i := i + 1;
      }
    }
  }
}
