/**
 The hand-off protocol of EventLoop.cpp as a state machine over its atomic steps: one loop thread, any
 number of other threads, a queue behind a mutex, an eventfd counter and two flags. Threads are told
 apart by their ids, as isInLoopThread means to. The type F of functors is left open.
*/
module LoopProtocol {

  type Thread = nat

  /** Where the loop thread stands. */
  datatype Pc =
    | Outside      // before or after loop()
    | Check        // about to evaluate while (!quit_)
    | Polling      // inside epoll_wait
    | Handling     // dispatching the active channels
    | Swapping     // callingPendingFunctors_ is set, the queue not yet swapped out
    | Running      // running the functors of the batch

  datatype Loop<F> = Loop(
    pc: Pc,
    quit: bool,
    calling: bool,
    counter: nat,            // the eventfd
    reported: bool,          // this poll reported the eventfd, and handleRead is still to come
    pending: seq<F>,
    batch: seq<F>,           // what is left of the swapped-out batch
    owing: set<Thread>,      // threads between their change and their wakeup()
    loopOwes: bool,          // so is the loop thread, inside queueInLoop
    silent: bool,            // the loop thread queued before loop() ran, without a wakeup
    queued: seq<F>,          // history: everything ever queued, in the order the mutex was taken
    executed: seq<F>         // history: every functor run from the queue
  ) {
    /** Blocked in epoll_wait: nothing to read on the eventfd, and nobody about to write to it. */
    predicate Asleep() {
      pc == Polling && counter == 0 && owing == {}
    }
  }

  function Start<F>(): Loop<F> {
    Loop(Outside, false, false, 0, false, [], [], {}, false, false, [], [])
  }

  datatype Event<F> =
    | Enqueue(t: Thread, f: F)      // another thread, inside queueInLoop or runInLoop
    | AskToQuit(t: Thread)          // another thread, inside quit
    | Wake(t: Thread)               // ... and its write to the eventfd
    | LoopEnqueue(f: F)             // the loop thread, inside queueInLoop, from whatever it is running
    | LoopWake
    | LoopQuit
    | Enter                         // loop() starts: quit_ = false
    | Leave                         // the check finds quit_ set
    | Poll                          // the check does not
    | Return(woken: bool)           // epoll_wait returns, for whatever reason; woken: with the eventfd
    | HandleRead
    | BeginFunctors                 // callingPendingFunctors_ = true
    | Swap
    | Run                           // the next functor of the batch starts
    | EndFunctors                   // callingPendingFunctors_ = false

  predicate Enabled<F>(s: Loop<F>, e: Event<F>) {
    match e
    case Enqueue(t, _) => t !in s.owing
    case AskToQuit(t) => t !in s.owing
    case Wake(t) => t in s.owing
    case LoopWake => s.loopOwes
    case _ =>
      && !s.loopOwes
      && match e
         case LoopEnqueue(_) => s.pc == Outside || s.pc == Handling || s.pc == Running
         case LoopQuit => s.pc == Outside || s.pc == Handling || s.pc == Running
         case Enter => s.pc == Outside
         case Leave => s.pc == Check && s.quit
         case Poll => s.pc == Check && !s.quit
         case Return(woken) => s.pc == Polling && (woken ==> s.counter > 0)
         case HandleRead => s.pc == Handling && s.reported
         case BeginFunctors => s.pc == Handling && !s.reported
         case Swap => s.pc == Swapping
         case Run => s.pc == Running && s.batch != []
         case EndFunctors => s.pc == Running && s.batch == []
         case _ => false
  }

  function Apply<F>(s: Loop<F>, e: Event<F>): Loop<F>
    requires Enabled(s, e)
  {
    match e
    case Enqueue(t, f) => s.(pending := s.pending + [f], queued := s.queued + [f], owing := s.owing + {t})
    case AskToQuit(t) => s.(quit := true, owing := s.owing + {t})
    case Wake(t) => s.(counter := s.counter + 1, owing := s.owing - {t})
    case LoopEnqueue(f) =>
      s.(pending := s.pending + [f], queued := s.queued + [f], loopOwes := s.calling, silent := s.silent || s.pc == Outside)
    case LoopWake => s.(counter := s.counter + 1, loopOwes := false)
    case LoopQuit => s.(quit := true)
    case Enter => s.(pc := Check, quit := false)
    case Leave => s.(pc := Outside)
    case Poll => s.(pc := Polling)
    case Return(woken) => s.(pc := Handling, reported := woken)
    case HandleRead => s.(counter := 0, reported := false)
    case BeginFunctors => s.(pc := Swapping, calling := true)
    case Swap => s.(pc := Running, batch := s.pending, pending := [], silent := false)
    case Run => s.(batch := s.batch[1..], executed := s.executed + [s.batch[0]])
    case EndFunctors => s.(pc := Check, calling := false)
  }

  ghost predicate IsRun<F>(ss: seq<Loop<F>>, es: seq<Event<F>>) {
    && |ss| == |es| + 1
    && ss[0] == Start()
    && forall i :: 0 <= i < |es| ==> StepAt(ss, es, i)
  }

  ghost predicate StepAt<F>(ss: seq<Loop<F>>, es: seq<Event<F>>, i: nat)
    requires i < |es| && |ss| == |es| + 1
  {
    Enabled(ss[i], es[i]) && ss[i + 1] == Apply(ss[i], es[i])
  }

  // ----- The invariant -----

  /** Somebody has written to the eventfd since it was last read, or is about to. */
  predicate Signalled<F>(s: Loop<F>) {
    s.counter > 0 || s.owing != {} || s.loopOwes
  }

  ghost predicate Inv<F>(s: Loop<F>) {
    // nothing is lost, repeated or reordered
    && s.executed + s.batch + s.pending == s.queued
    && (s.batch != [] ==> s.pc == Running)
    && (s.calling <==> s.pc == Swapping || s.pc == Running)
    && (s.loopOwes ==> s.pc == Running && s.pending != [])
    && (s.reported ==> s.pc == Handling)
    // whatever is queued while no swap is to come before the next poll is signalled
    && (s.pc == Outside || s.pc == Check || s.pc == Polling || s.pc == Running ==>
          s.pending != [] ==> Signalled(s) || s.silent)
    && (s.silent ==> s.pending != [] && s.pc != Running)
    && (s.pc == Polling && s.quit ==> Signalled(s))
  }

  /** No step loses, repeats or reorders a functor. */
  lemma ApplyHistory<F>(s: Loop<F>, e: Event<F>)
    requires Enabled(s, e) && s.executed + s.batch + s.pending == s.queued && (e == Swap ==> s.batch == [])
    ensures var d := Apply(s, e); d.executed + d.batch + d.pending == d.queued
  {
    var d := Apply(s, e);
    match e
    case Enqueue(_, f) => assert d.executed + d.batch + d.pending == (s.executed + s.batch + s.pending) + [f];
    case LoopEnqueue(f) => assert d.executed + d.batch + d.pending == (s.executed + s.batch + s.pending) + [f];
    case Run =>
      assert s.batch == [s.batch[0]] + s.batch[1..];
      assert d.executed + d.batch == s.executed + s.batch;
    case _ =>
  }

  lemma ApplyInv<F>(s: Loop<F>, e: Event<F>)
    requires Inv(s) && Enabled(s, e)
    ensures Inv(Apply(s, e))
  {
    ApplyHistory(s, e);
    match e
    case Enqueue(t, f) => assert t in Apply(s, e).owing;
    case AskToQuit(t) => assert t in Apply(s, e).owing;
    case _ =>
  }

  lemma {:induction false} RunInv<F>(ss: seq<Loop<F>>, es: seq<Event<F>>, i: nat)
    requires IsRun(ss, es) && i <= |es|
    ensures Inv(ss[i])
  {
    if i > 0 {
      assert StepAt(ss, es, i - 1);
      RunInv(ss, es, i - 1);
      ApplyInv(ss[i - 1], es[i - 1]);
    }
  }

  // ----- No lost wakeup -----

  /**
   Whenever the loop thread blocks with nothing to wake it, no quit is outstanding, and functors are
   waiting exactly when the loop thread itself had queued some before loop() and not swapped since.
  */
  lemma NoLostWakeup<F>(ss: seq<Loop<F>>, es: seq<Event<F>>, i: nat)
    requires IsRun(ss, es) && i <= |es| && ss[i].Asleep()
    ensures !ss[i].quit
    ensures ss[i].pending != [] <==> ss[i].silent
  {
    RunInv(ss, es, i);
  }

  /** The loop thread has not been outside loop() since step i. */
  ghost predicate Inside<F>(ss: seq<Loop<F>>, i: nat, j: nat) {
    i <= j < |ss| && forall k :: i <= k <= j ==> ss[k].pc != Outside
  }

  lemma {:induction false} StaysAudible<F>(ss: seq<Loop<F>>, es: seq<Event<F>>, i: nat, j: nat)
    requires IsRun(ss, es) && Inside(ss, i, j) && !ss[i].silent
    ensures !ss[j].silent
  {
    if i < j {
      assert StepAt(ss, es, j - 1);
      StaysAudible(ss, es, i, j - 1);
    }
  }

  /**
   From the second poll of a loop() on, or from the first if the queue was empty when loop() started:
   the loop thread never blocks over a waiting functor or a quit.
  */
  lemma NeverSleepsOnWork<F>(ss: seq<Loop<F>>, es: seq<Event<F>>, i: nat, j: nat)
    requires IsRun(ss, es) && i < j <= |es| && Inside(ss, i + 1, j)
    requires es[i] == Swap || (es[i] == Enter && ss[i].pending == [])
    requires ss[j].Asleep()
    ensures ss[j].pending == [] && !ss[j].quit && ss[j].executed == ss[j].queued
  {
    assert StepAt(ss, es, i);
    RunInv(ss, es, i);
    StaysAudible(ss, es, i + 1, j);
    RunInv(ss, es, j);
    NoLostWakeup(ss, es, j);
  }

  /** Why the first poll is different: one functor queued by the loop thread itself before loop(). */
  lemma FirstPollMaySleep<F>(f: F)
    ensures var s1 := Apply(Start<F>(), LoopEnqueue(f));
            var s2 := Apply(s1, Enter);
            var s3 := Apply(s2, Poll);
            IsRun([Start(), s1, s2, s3], [LoopEnqueue(f), Enter, Poll]) && s3.Asleep() && s3.pending == [f]
  {
  }

  /** A quit that comes before loop() is forgotten: loop() clears the flag and goes to sleep. */
  lemma EarlyQuitIsForgotten<F>()
    ensures var s1 := Apply(Start<F>(), LoopQuit);
            var s2 := Apply(s1, Enter);
            var s3 := Apply(s2, Poll);
            IsRun([Start(), s1, s2, s3], [LoopQuit, Enter, Poll]) && s1.quit && s3.Asleep() && !s3.quit
  {
  }

  // ----- Each functor once, in order -----

  /** Under every interleaving the functors run so far are a front part of all that were queued. */
  lemma ExactlyOnceInOrder<F>(ss: seq<Loop<F>>, es: seq<Event<F>>, i: nat)
    requires IsRun(ss, es) && i <= |es|
    ensures ss[i].executed <= ss[i].queued
    ensures ss[i].queued == ss[i].executed + ss[i].batch + ss[i].pending
  {
    RunInv(ss, es, i);
  }

  lemma {:induction false} QueuedGrows<F>(ss: seq<Loop<F>>, es: seq<Event<F>>, i: nat, j: nat)
    requires IsRun(ss, es) && i <= j <= |es|
    ensures ss[i].queued <= ss[j].queued
    decreases j
  {
    if i < j {
      assert StepAt(ss, es, j - 1);
      QueuedGrows(ss, es, i, j - 1);
    }
  }

  lemma RunStep<F>(ss: seq<Loop<F>>, es: seq<Event<F>>, k: nat)
    requires IsRun(ss, es) && k < |es|
    ensures Enabled(ss[k], es[k]) && ss[k + 1] == Apply(ss[k], es[k])
  {
    assert StepAt(ss, es, k);
  }

  /** The loop thread has been running functors from step i to step j. */
  ghost predicate Busy<F>(ss: seq<Loop<F>>, i: nat, j: nat) {
    i <= j < |ss| && forall k :: i <= k <= j ==> ss[k].pc == Running
  }

  /** What has run and what is still to run of the batch. */
  function DoneOrToDo<F>(s: Loop<F>): seq<F> {
    s.executed + s.batch
  }

  lemma StepInBatch<F>(s: Loop<F>, e: Event<F>)
    requires Enabled(s, e) && s.pc == Running && Apply(s, e).pc == Running
    ensures DoneOrToDo(Apply(s, e)) == DoneOrToDo(s)
    ensures |Apply(s, e).batch| == |s.batch| - if e == Run then 1 else 0
  {
    if e == Run {
      assert s.batch == [s.batch[0]] + s.batch[1..];
    }
  }

  lemma {:induction false} BatchStands<F>(ss: seq<Loop<F>>, es: seq<Event<F>>, i: nat, j: nat)
    requires IsRun(ss, es) && Busy(ss, i, j)
    ensures DoneOrToDo(ss[j]) == DoneOrToDo(ss[i])
    decreases j
  {
    if i < j {
      RunStep(ss, es, j - 1);
      StepInBatch(ss[j - 1], es[j - 1]);
      BatchStands(ss, es, i, j - 1);
    }
  }

  /**
   A batch is exactly what was waiting at the swap: when it ends all of that has run and nothing else
   has, and whatever was queued meanwhile, by anybody, is still waiting, in order.
  */
  lemma BatchRunsItself<F>(ss: seq<Loop<F>>, es: seq<Event<F>>, i: nat, j: nat)
    requires IsRun(ss, es) && i < j < |es| && es[i] == Swap && es[j] == EndFunctors
    requires Busy(ss, i + 1, j)
    ensures ss[j + 1].executed == ss[i].executed + ss[i].pending
    ensures ss[i].queued <= ss[j + 1].queued
    ensures ss[j + 1].pending == ss[j + 1].queued[|ss[i].queued|..]
  {
    RunStep(ss, es, i);
    RunStep(ss, es, j);
    RunInv(ss, es, i);
    RunInv(ss, es, j);
    BatchStands(ss, es, i + 1, j);
    QueuedGrows(ss, es, i, j);
    assert ss[i].queued == ss[i].executed + ss[i].pending;
    assert ss[j].queued == (ss[i].executed + ss[i].pending) + ss[j].pending;
  }

  // ----- What a quit leaves behind -----

  /** No swap from step i to step j. */
  ghost predicate NoSwap<F>(es: seq<Event<F>>, i: nat, j: nat) {
    j <= |es| && forall k :: i <= k < j ==> es[k] != Swap
  }

  lemma {:induction false} PendingSince<F>(ss: seq<Loop<F>>, es: seq<Event<F>>, i: nat, j: nat)
    requires IsRun(ss, es) && i <= j <= |es| && NoSwap(es, i, j)
    ensures ss[i].queued <= ss[j].queued
    ensures ss[j].pending == ss[i].pending + ss[j].queued[|ss[i].queued|..]
    decreases j
  {
    if i < j {
      PendingSince(ss, es, i, j - 1);
      RunStep(ss, es, j - 1);
      PendingStep(ss[j - 1], es[j - 1]);
      SinceStep(ss[i].queued, ss[i].pending, ss[j - 1].queued, ss[j - 1].pending, Added(es[j - 1]));
    }
  }

  lemma SinceStep<F>(queued: seq<F>, pending: seq<F>, queued': seq<F>, pending': seq<F>, added: seq<F>)
    requires queued <= queued' && pending' == pending + queued'[|queued|..]
    ensures queued <= queued' + added && pending' + added == pending + (queued' + added)[|queued|..]
  {
    assert (queued' + added)[|queued|..] == queued'[|queued|..] + added;
  }

  lemma PendingStep<F>(s: Loop<F>, e: Event<F>)
    requires Enabled(s, e) && e != Swap
    ensures Apply(s, e).pending == s.pending + Added(e) && Apply(s, e).queued == s.queued + Added(e)
  {
    if !e.Enqueue? && !e.LoopEnqueue? {
      assert Apply(s, e).pending == s.pending && Apply(s, e).queued == s.queued;
    }
  }

  function Added<F>(e: Event<F>): seq<F> {
    if e.Enqueue? || e.LoopEnqueue? then [e.f] else []
  }

  /**
   When loop() returns, everything queued up to the last swap has run, and exactly what was queued since
   is still waiting, in order: it will not run, unless loop() is called again.
  */
  lemma QuitLeavesTheRest<F>(ss: seq<Loop<F>>, es: seq<Event<F>>, i: nat, j: nat)
    requires IsRun(ss, es) && i < j < |es| && es[i] == Swap && es[j] == Leave && NoSwap(es, i + 1, j)
    ensures ss[j + 1].executed == ss[i].queued && ss[i].queued <= ss[j + 1].queued
    ensures ss[j + 1].pending == ss[j + 1].queued[|ss[i].queued|..]
  {
    RunStep(ss, es, i);
    RunStep(ss, es, j);
    PendingSince(ss, es, i + 1, j);
    RunInv(ss, es, j);
    FrontAndRest(ss[i].queued, ss[j].queued, ss[j].executed, ss[j].pending);
  }

  lemma FrontAndRest<F>(before: seq<F>, queued: seq<F>, executed: seq<F>, pending: seq<F>)
    requires before <= queued && pending == queued[|before|..] && executed + pending == queued
    ensures executed == before
  {
    assert executed == queued[..|executed|];
  }

  /** A quit and a functor from two other threads, before the first check: loop() returns with the functor waiting. */
  lemma QuitLeavesWork<F>(f: F)
    ensures var s1 := Apply(Start<F>(), Enter);
            var s2 := Apply(s1, AskToQuit(1));
            var s3 := Apply(s2, Enqueue(2, f));
            var s4 := Apply(s3, Leave);
            IsRun([Start(), s1, s2, s3, s4], [Enter, AskToQuit(1), Enqueue(2, f), Leave]) && s4.pending == [f] && s4.executed == []
  {
  }

  // ----- Work gets done without a timeout -----

  ghost predicate Reaches<F>(s: Loop<F>, es: seq<Event<F>>, d: Loop<F>)
    decreases |es|
  {
    if es == [] then s == d else Enabled(s, es[0]) && Reaches(Apply(s, es[0]), es[1..], d)
  }

  /** A step that needs no new request and no epoll timeout. */
  predicate Prompt<F>(e: Event<F>) {
    e.Wake? || e.LoopWake? || e.Poll? || e == Return(true) || e.HandleRead? || e.BeginFunctors? || e.Swap? || e.Run? || e.EndFunctors?
  }

  /** The one step that brings the waiting functors closer to having run. */
  ghost function NextStep<F>(s: Loop<F>): Event<F>
    requires Inv(s) && !s.quit && s.pc != Outside && !s.silent && s.executed != s.queued
    ensures Enabled(s, NextStep(s)) && Prompt(NextStep(s))
  {
    if s.loopOwes then LoopWake
    else
      match s.pc
      case Check => Poll
      case Polling =>
        if s.counter > 0 then Return(true)
        else
          assert s.pending != [];
          var t :| t in s.owing;
          Wake(t)
      case Handling => if s.reported then HandleRead else BeginFunctors
      case Swapping => Swap
      case Running => if s.batch != [] then Run else EndFunctors
  }

  /** How far the loop thread is from the end of the batch that contains all that is waiting now. */
  ghost function Distance<F>(s: Loop<F>): nat {
    match s.pc
    case Outside => 0
    case Running => if s.pending == [] then |s.batch| else |s.batch| + |s.pending| + 9 + if s.loopOwes then 1 else 0
    case Check => |s.pending| + 7
    case Polling => |s.pending| + if s.counter > 0 then 5 else 6
    case Handling => |s.pending| + if s.reported then 4 else 3
    case Swapping => |s.pending| + 1
  }

  lemma NextStepIsCloser<F>(s: Loop<F>)
    requires Inv(s) && !s.quit && s.pc != Outside && !s.silent && s.executed != s.queued
    ensures var d := Apply(s, NextStep(s));
            && Inv(d) && !d.quit && d.pc != Outside && !d.silent && d.queued == s.queued
            && Distance(d) < Distance(s)
  {
    ApplyInv(s, NextStep(s));
  }

  /**
   From every reachable state inside loop(), with no quit and no unsignalled functor, the wakeups already
   under way are enough: without any new request or timeout, everything queued so far gets run.
  */
  lemma {:induction false} WorkGetsDone<F>(s: Loop<F>) returns (es: seq<Event<F>>, d: Loop<F>)
    requires Inv(s) && !s.quit && s.pc != Outside && !s.silent
    ensures Reaches(s, es, d) && (forall k :: 0 <= k < |es| ==> Prompt(es[k]))
    ensures d.executed == d.queued == s.queued
    decreases Distance(s)
  {
    if s.executed == s.queued {
      es, d := [], s;
    } else {
      NextStepIsCloser(s);
      var e := NextStep(s);
      var rest;
      rest, d := WorkGetsDone(Apply(s, e));
      es := [e] + rest;
    }
  }
}
