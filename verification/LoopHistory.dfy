/** The flags and counters of a loop, each as the sum of what the threads did. */
module LoopHistory {
  import opened LoopProtocol

  /** The writes to the eventfd since it was last read. */
  function WritesSince<F>(es: seq<Event<F>>, i: nat): nat
    requires i <= |es|
  {
    if i == 0 then 0
    else
      match es[i - 1]
      case HandleRead => 0
      case Wake(_) => WritesSince(es, i - 1) + 1
      case LoopWake => WritesSince(es, i - 1) + 1
      case _ => WritesSince(es, i - 1)
  }

  /** On every run the eventfd counts the writes since it was last read: reading it empties it. */
  lemma {:induction false} CounterIsWritesSince<F>(ss: seq<Loop<F>>, es: seq<Event<F>>, i: nat)
    requires IsRun(ss, es) && i <= |es|
    ensures ss[i].counter == WritesSince(es, i)
  {
    if i > 0 {
      assert StepAt(ss, es, i - 1);
      CounterIsWritesSince(ss, es, i - 1);
    }
  }

  lemma {:induction false} WroteSince<F>(es: seq<Event<F>>, i: nat) returns (k: nat)
    requires i <= |es| && WritesSince(es, i) > 0
    ensures k < i && (es[k].Wake? || es[k].LoopWake?) && forall m :: k < m < i ==> !es[m].HandleRead?
  {
    k := i - 1;
    if !es[k].Wake? && !es[k].LoopWake? {
      k := WroteSince(es, i - 1);
    }
  }

  /** So a poll returns with the eventfd only if somebody has written to it since it was last read. */
  lemma ReturnsOnlyWhenWoken<F>(ss: seq<Loop<F>>, es: seq<Event<F>>, i: nat) returns (k: nat)
    requires IsRun(ss, es) && i < |es| && es[i] == Return(true)
    ensures k < i && (es[k].Wake? || es[k].LoopWake?) && forall m :: k < m < i ==> !es[m].HandleRead?
  {
    assert StepAt(ss, es, i);
    CounterIsWritesSince(ss, es, i);
    k := WroteSince(es, i);
  }

  // ----- The flags -----

  /** The last of the events that set or clear a flag set it. */
  ghost predicate Since<F>(es: seq<Event<F>>, i: nat, sets: Event<F> -> bool, clears: Event<F> -> bool) {
    i <= |es| && exists k :: 0 <= k < i && SinceAt(es, k, i, sets, clears)
  }

  ghost predicate SinceAt<F>(es: seq<Event<F>>, k: nat, i: nat, sets: Event<F> -> bool, clears: Event<F> -> bool)
    requires k < i <= |es|
  {
    sets(es[k]) && forall m :: k < m < i ==> !clears(es[m])
  }

  lemma SinceStep<F>(es: seq<Event<F>>, i: nat, sets: Event<F> -> bool, clears: Event<F> -> bool)
    requires 0 < i <= |es| && forall e :: !(sets(e) && clears(e))
    ensures Since(es, i, sets, clears) <==> sets(es[i - 1]) || (Since(es, i - 1, sets, clears) && !clears(es[i - 1]))
  {
    if Since(es, i, sets, clears) {
      var k :| 0 <= k < i && SinceAt(es, k, i, sets, clears);
      assert k < i - 1 ==> SinceAt(es, k, i - 1, sets, clears);
    }
    if sets(es[i - 1]) {
      assert SinceAt(es, i - 1, i, sets, clears);
    }
    if Since(es, i - 1, sets, clears) && !clears(es[i - 1]) {
      var k :| 0 <= k < i - 1 && SinceAt(es, k, i - 1, sets, clears);
      assert SinceAt(es, k, i, sets, clears);
    }
  }

  /** On every run: quit is asked for exactly if somebody did since loop() last started. */
  lemma {:induction false} QuitExactly<F>(ss: seq<Loop<F>>, es: seq<Event<F>>, i: nat)
    requires IsRun(ss, es) && i <= |es|
    ensures ss[i].quit <==> Since(es, i, (e: Event<F>) => e.AskToQuit? || e.LoopQuit?, (e: Event<F>) => e.Enter?)
  {
    if i > 0 {
      assert StepAt(ss, es, i - 1);
      QuitExactly(ss, es, i - 1);
      SinceStep(es, i, (e: Event<F>) => e.AskToQuit? || e.LoopQuit?, (e: Event<F>) => e.Enter?);
    }
  }

  /** A thread owes the eventfd a write exactly from its change to its wakeup. */
  lemma {:induction false} OwingExactly<F>(ss: seq<Loop<F>>, es: seq<Event<F>>, i: nat, t: Thread)
    requires IsRun(ss, es) && i <= |es|
    ensures t in ss[i].owing <==>
            Since(es, i, (e: Event<F>) => (e.Enqueue? || e.AskToQuit?) && e.t == t, (e: Event<F>) => e.Wake? && e.t == t)
  {
    if i > 0 {
      assert StepAt(ss, es, i - 1);
      OwingExactly(ss, es, i - 1, t);
      SinceStep(es, i, (e: Event<F>) => (e.Enqueue? || e.AskToQuit?) && e.t == t, (e: Event<F>) => e.Wake? && e.t == t);
    }
  }

  /** The poll that brought the loop here reported the eventfd, exactly until it is read. */
  lemma {:induction false} ReportedExactly<F>(ss: seq<Loop<F>>, es: seq<Event<F>>, i: nat)
    requires IsRun(ss, es) && i <= |es|
    ensures ss[i].reported <==> Since(es, i, (e: Event<F>) => e == Return(true), (e: Event<F>) => e.HandleRead? || e == Return(false))
  {
    if i > 0 {
      assert StepAt(ss, es, i - 1);
      ReportedExactly(ss, es, i - 1);
      SinceStep(es, i, (e: Event<F>) => e == Return(true), (e: Event<F>) => e.HandleRead? || e == Return(false));
    }
  }

  /** What the loop thread queued outside loop(), without a wakeup, and has not swapped out since. */
  ghost predicate QueuedOutside<F>(ss: seq<Loop<F>>, es: seq<Event<F>>, i: nat)
    requires |ss| == |es| + 1 && i <= |es|
  {
    exists k :: 0 <= k < i && QueuedOutsideAt(ss, es, k, i)
  }

  ghost predicate QueuedOutsideAt<F>(ss: seq<Loop<F>>, es: seq<Event<F>>, k: nat, i: nat)
    requires |ss| == |es| + 1 && k < i <= |es|
  {
    es[k].LoopEnqueue? && ss[k].pc == Outside && forall m :: k < m < i ==> !es[m].Swap?
  }

  /** On every run: exactly this is what a first poll may sleep over. */
  lemma {:induction false} SilentExactly<F>(ss: seq<Loop<F>>, es: seq<Event<F>>, i: nat)
    requires IsRun(ss, es) && i <= |es|
    ensures ss[i].silent <==> QueuedOutside(ss, es, i)
  {
    if i > 0 {
      assert StepAt(ss, es, i - 1);
      SilentExactly(ss, es, i - 1);
      QueuedOutsideStep(ss, es, i);
    }
  }

  lemma QueuedOutsideStep<F>(ss: seq<Loop<F>>, es: seq<Event<F>>, i: nat)
    requires |ss| == |es| + 1 && 0 < i <= |es|
    ensures QueuedOutside(ss, es, i)
            <==> (es[i - 1].LoopEnqueue? && ss[i - 1].pc == Outside) || (QueuedOutside(ss, es, i - 1) && !es[i - 1].Swap?)
  {
    if QueuedOutside(ss, es, i) {
      var k :| 0 <= k < i && QueuedOutsideAt(ss, es, k, i);
      assert k < i - 1 ==> QueuedOutsideAt(ss, es, k, i - 1);
    }
    if es[i - 1].LoopEnqueue? && ss[i - 1].pc == Outside {
      assert QueuedOutsideAt(ss, es, i - 1, i);
    }
    if QueuedOutside(ss, es, i - 1) && !es[i - 1].Swap? {
      var k :| 0 <= k < i - 1 && QueuedOutsideAt(ss, es, k, i - 1);
      assert QueuedOutsideAt(ss, es, k, i);
    }
  }
}
