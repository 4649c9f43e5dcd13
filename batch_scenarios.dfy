/**
 * Concrete runs of the pipeline model, mirroring the two tests that
 * accompany the source (internal/batch/batch_test.go) and the retry of a
 * buffer that is full or over the limit after a callback error
 * (internal/batch/batch.go:43).  Items are arbitrary values a, b, c, ...
 * Each proof walks the run one event at a time.
 */
module BatchScenarios {
  import opened BatchSpec

  /** An Add below the threshold at the head of a run. */
  lemma PutBelow<T>(s: State<T>, x: T, ok: bool, rest: seq<Event<T>>, t: State<T>)
    requires |s.buffer| + 1 < s.maxSize
    requires t == State(s.maxSize, s.buffer + [x], s.timerRunning, s.added + [x], s.calls)
    ensures Run(s, [Put(x, ok)] + rest) == Run(t, rest)
  {
    assert ([Put(x, ok)] + rest)[1..] == rest;
  }

  /** An Add that reaches the threshold at the head of a run. */
  lemma PutFlush<T>(s: State<T>, x: T, ok: bool, rest: seq<Event<T>>, t: State<T>)
    requires |s.buffer| + 1 >= s.maxSize
    requires t == State(s.maxSize, if ok then [] else s.buffer + [x], s.timerRunning, s.added + [x],
                        s.calls + [Call(SizeReached, s.buffer + [x], ok)])
    ensures Run(s, [Put(x, ok)] + rest) == Run(t, rest)
  {
    assert ([Put(x, ok)] + rest)[1..] == rest;
  }

  /** An elapsed wait at the head of a run, while the loop runs. */
  lemma TickRunning<T>(s: State<T>, ok: bool, rest: seq<Event<T>>, t: State<T>)
    requires s.timerRunning
    requires t == State(s.maxSize, if ok then [] else s.buffer, true, s.added,
                        s.calls + [Call(DeadlineElapsed, s.buffer, ok)])
    ensures Run(s, [Loop(Elapsed(ok))] + rest) == Run(t, rest)
  {
    assert ([Loop(Elapsed(ok))] + rest)[1..] == rest;
  }

  /** The shutdown signal at the head of a run. */
  lemma StopFirst<T>(s: State<T>, rest: seq<Event<T>>, t: State<T>)
    requires t == s.(timerRunning := false)
    ensures Run(s, [Loop(Shutdown)] + rest) == Run(t, rest)
  {
    assert ([Loop(Shutdown)] + rest)[1..] == rest;
  }

  /** maxSize 3, a callback that always succeeds, five Adds and then two
      elapsed waits (the test sleeps 11 seconds with a 5-second wait): the
      Adds flush a, b and c together, the first tick flushes d and e, the
      second hands the callback an empty batch, and the buffer ends empty. */
  lemma FiveItemsMaxThree<T>(a: T, b: T, c: T, d: T, e: T)
    ensures Run(Init<T>(3), [Put(a, true), Put(b, true), Put(c, true), Put(d, true), Put(e, true),
                            Loop(Elapsed(true)), Loop(Elapsed(true))])
            == State(3, [], true, [a, b, c, d, e],
                     [Call(SizeReached, [a, b, c], true), Call(DeadlineElapsed, [d, e], true),
                      Call(DeadlineElapsed, [], true)])
  {
    var r6: seq<Event<T>> := [Loop(Elapsed(true))];
    var r5 := [Loop(Elapsed(true))] + r6;
    var r4 := [Put(e, true)] + r5;
    var r3 := [Put(d, true)] + r4;
    var r2 := [Put(c, true)] + r3;
    var r1 := [Put(b, true)] + r2;
    var es := [Put(a, true)] + r1;
    var c1 := Call(SizeReached, [a, b, c], true);
    var s0 := Init<T>(3);
    var s1 := State(3, [a], true, [a], []);
    var s2 := State(3, [a, b], true, [a, b], []);
    var s3 := State(3, [], true, [a, b, c], [c1]);
    var s4 := State(3, [d], true, [a, b, c, d], [c1]);
    var s5 := State(3, [d, e], true, [a, b, c, d, e], [c1]);
    var s6 := State(3, [], true, [a, b, c, d, e], [c1, Call(DeadlineElapsed, [d, e], true)]);
    var s7 := State(3, [], true, [a, b, c, d, e],
                    [c1, Call(DeadlineElapsed, [d, e], true), Call(DeadlineElapsed, [], true)]);
    assert Run(s0, es) == Run(s3, r3) by {
      assert Run(s0, es) == Run(s1, r1) by { PutBelow(s0, a, true, r1, s1); }
      assert Run(s1, r1) == Run(s2, r2) by { PutBelow(s1, b, true, r2, s2); }
      assert Run(s2, r2) == Run(s3, r3) by {
        assert s2.buffer + [c] == [a, b, c] && s2.added + [c] == [a, b, c] && s2.calls + [c1] == [c1];
        PutFlush(s2, c, true, r3, s3);
      }
    }
    assert Run(s3, r3) == Run(s5, r5) by {
      assert Run(s3, r3) == Run(s4, r4) by { PutBelow(s3, d, true, r4, s4); }
      assert Run(s4, r4) == Run(s5, r5) by { PutBelow(s4, e, true, r5, s5); }
    }
    assert Run(s5, r5) == s7 by {
      assert Run(s5, r5) == Run(s6, r6) by { TickRunning(s5, true, r6, s6); }
      assert Run(s6, r6) == s7 by {
        assert r6 == [Loop(Elapsed(true))] + [];
        assert s6.calls + [Call(DeadlineElapsed, [], true)] == s7.calls;
        TickRunning(s6, true, [], s7);
      }
    }
    assert es == [Put(a, true), Put(b, true), Put(c, true), Put(d, true), Put(e, true),
                  Loop(Elapsed(true)), Loop(Elapsed(true))];
  }

  /** maxSize 2, a callback that always succeeds, five Adds: batches
      [a, b] and [c, d] are delivered and e is left pending. */
  lemma FiveItemsMaxTwo<T>(a: T, b: T, c: T, d: T, e: T)
    ensures Run(Init<T>(2), [Put(a, true), Put(b, true), Put(c, true), Put(d, true), Put(e, true)])
            == State(2, [e], true, [a, b, c, d, e],
                     [Call(SizeReached, [a, b], true), Call(SizeReached, [c, d], true)])
  {
    var r4: seq<Event<T>> := [Put(e, true)];
    var r3 := [Put(d, true)] + r4;
    var r2 := [Put(c, true)] + r3;
    var r1 := [Put(b, true)] + r2;
    var es := [Put(a, true)] + r1;
    var c1 := Call(SizeReached, [a, b], true);
    var c2 := Call(SizeReached, [c, d], true);
    var s0 := Init<T>(2);
    var s1 := State(2, [a], true, [a], []);
    var s2 := State(2, [], true, [a, b], [c1]);
    var s3 := State(2, [c], true, [a, b, c], [c1]);
    var s4 := State(2, [], true, [a, b, c, d], [c1, c2]);
    var s5 := State(2, [e], true, [a, b, c, d, e], [c1, c2]);
    assert Run(s0, es) == Run(s2, r2) by {
      assert Run(s0, es) == Run(s1, r1) by { PutBelow(s0, a, true, r1, s1); }
      assert Run(s1, r1) == Run(s2, r2) by {
        assert s1.buffer + [b] == [a, b] && s1.added + [b] == [a, b] && s1.calls + [c1] == [c1];
        PutFlush(s1, b, true, r2, s2);
      }
    }
    assert Run(s2, r2) == s5 by {
      assert Run(s2, r2) == Run(s3, r3) by { PutBelow(s2, c, true, r3, s3); }
      assert Run(s3, r3) == Run(s4, r4) by {
        assert s3.buffer + [d] == [c, d] && s3.added + [d] == [a, b, c, d] && s3.calls + [c2] == [c1, c2];
        PutFlush(s3, d, true, r4, s4);
      }
      assert Run(s4, r4) == s5 by {
        assert r4 == [Put(e, true)] + [];
        PutBelow(s4, e, true, [], s5);
      }
    }
    assert es == [Put(a, true), Put(b, true), Put(c, true), Put(d, true), Put(e, true)];
  }

  /** n elapsed waits whose flushes succeed. */
  function Ticks<T>(n: nat): (es: seq<Event<T>>)
  {
    if n == 0 then [] else [Loop(Elapsed(true))] + Ticks(n - 1)
  }

  /** n successful calls made by ticks on an empty buffer. */
  function EmptyCalls<T>(n: nat): (calls: seq<Call<T>>)
  {
    if n == 0 then [] else [Call(DeadlineElapsed, [], true)] + EmptyCalls(n - 1)
  }

  /** While the loop runs on an empty buffer, every tick hands the callback
      an empty batch and nothing else changes. */
  lemma {:induction false} EmptyTicks<T>(s: State<T>, n: nat)
    requires s.timerRunning && s.buffer == []
    ensures Run(s, Ticks<T>(n)) == s.(calls := s.calls + EmptyCalls<T>(n))
    decreases n
  {
    if n == 0 {
      assert s.calls + EmptyCalls<T>(0) == s.calls;
    } else {
      var rest := Ticks<T>(n - 1);
      var t := s.(calls := s.calls + [Call(DeadlineElapsed, [], true)]);
      assert Run(s, Ticks<T>(n)) == Run(t, rest) by {
        assert Ticks<T>(n) == [Loop(Elapsed(true))] + rest;
        TickRunning(s, true, rest, t);
      }
      assert Run(t, rest) == t.(calls := t.calls + EmptyCalls<T>(n - 1)) by { EmptyTicks(t, n - 1); }
      assert t.calls + EmptyCalls<T>(n - 1) == s.calls + EmptyCalls<T>(n) by {
        assert EmptyCalls<T>(n) == [Call(DeadlineElapsed, [], true)] + EmptyCalls<T>(n - 1);
      }
    }
  }

  /** n >= 1 elapsed waits and then the shutdown: the pending items go out
      on the first tick, every later tick hands the callback an empty
      batch, and the loop stops without flushing. */
  lemma TicksThenShutdown<T>(s: State<T>, n: nat)
    requires s.timerRunning && 1 <= n
    ensures Run(s, Ticks<T>(n) + [Loop(Shutdown)])
            == State(s.maxSize, [], false, s.added,
                     s.calls + [Call(DeadlineElapsed, s.buffer, true)] + EmptyCalls<T>(n - 1))
  {
    var s1 := State(s.maxSize, [], true, s.added, s.calls + [Call(DeadlineElapsed, s.buffer, true)]);
    var stop: seq<Event<T>> := [Loop(Shutdown)];
    var rest := Ticks<T>(n - 1) + stop;
    assert Ticks<T>(n) + stop == [Loop(Elapsed(true))] + rest;
    assert Run(s, Ticks<T>(n) + stop) == Run(s1, rest) by { TickRunning(s, true, rest, s1); }
    var s2 := s1.(calls := s1.calls + EmptyCalls<T>(n - 1));
    assert Run(s1, rest) == Run(s2, stop) by {
      RunAppend(s1, Ticks<T>(n - 1), stop);
      EmptyTicks(s1, n - 1);
    }
    assert Run(s2, stop) == s2.(timerRunning := false) by {
      assert stop == [Loop(Shutdown)] + [];
      StopFirst(s2, [], s2.(timerRunning := false));
    }
  }

  /** maxSize 2, a callback that always succeeds, five Adds, n >= 1 elapsed
      waits and the shutdown: batches [a, b] and [c, d], then [e] alone,
      then one empty batch per further tick, and the loop has stopped.  The
      test sleeps ten times its one-second wait, so n is about nine there;
      the statement holds for every n. */
  lemma FiveItemsMaxTwoThenShutdown<T>(a: T, b: T, c: T, d: T, e: T, n: nat)
    requires 1 <= n
    ensures Run(Init<T>(2), [Put(a, true), Put(b, true), Put(c, true), Put(d, true), Put(e, true)]
                            + Ticks<T>(n) + [Loop(Shutdown)])
            == State(2, [], false, [a, b, c, d, e],
                     [Call(SizeReached, [a, b], true), Call(SizeReached, [c, d], true),
                      Call(DeadlineElapsed, [e], true)] + EmptyCalls<T>(n - 1))
  {
    var adds := [Put(a, true), Put(b, true), Put(c, true), Put(d, true), Put(e, true)];
    var loop := Ticks<T>(n) + [Loop(Shutdown)];
    assert adds + Ticks<T>(n) + [Loop(Shutdown)] == adds + loop;
    RunAppend(Init<T>(2), adds, loop);
    FiveItemsMaxTwo(a, b, c, d, e);
    TicksThenShutdown(Run(Init<T>(2), adds), n);
    assert [Call(SizeReached, [a, b], true), Call(SizeReached, [c, d], true)]
           + [Call(DeadlineElapsed, [e], true)]
        == [Call(SizeReached, [a, b], true), Call(SizeReached, [c, d], true),
            Call(DeadlineElapsed, [e], true)];
  }

  /** maxSize 2, a callback that always fails: the second Add hands [a, b]
      to the callback, the third retries with [a, b, c], and all three
      items stay pending. */
  lemma FailingCallbackRetriesWholeBuffer<T>(a: T, b: T, c: T)
    ensures Run(Init<T>(2), [Put(a, false), Put(b, false), Put(c, false)])
            == State(2, [a, b, c], true, [a, b, c],
                     [Call(SizeReached, [a, b], false), Call(SizeReached, [a, b, c], false)])
  {
    var r2: seq<Event<T>> := [Put(c, false)];
    var r1 := [Put(b, false)] + r2;
    var es := [Put(a, false)] + r1;
    var c1 := Call(SizeReached, [a, b], false);
    var s0 := Init<T>(2);
    var s1 := State(2, [a], true, [a], []);
    var s2 := State(2, [a, b], true, [a, b], [c1]);
    var s3 := State(2, [a, b, c], true, [a, b, c], [c1, Call(SizeReached, [a, b, c], false)]);
    assert Run(s0, es) == Run(s1, r1) by { PutBelow(s0, a, false, r1, s1); }
    assert Run(s1, r1) == Run(s2, r2) by {
      assert s1.buffer + [b] == [a, b] && s1.calls + [c1] == [c1];
      PutFlush(s1, b, false, r2, s2);
    }
    assert Run(s2, r2) == s3 by {
      assert r2 == [Put(c, false)] + [];
      assert s2.buffer + [c] == [a, b, c] && s2.added + [c] == [a, b, c];
      assert s2.calls + [Call(SizeReached, [a, b, c], false)] == s3.calls;
      PutFlush(s2, c, false, [], s3);
    }
    assert es == [Put(a, false), Put(b, false), Put(c, false)];
  }
}
