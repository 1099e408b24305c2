/**
 The loop object of EventLoop.cpp, call by call: each method is run without interruption and is shown
 to be a run of the interleaved protocol of LoopProtocol.dfy.
*/
module EventLoops {
  import opened LoopProtocol

  datatype Caller = LoopThread | Other(t: Thread)

  /** What a thread may want of a loop: queueInLoop, or quit. */
  datatype Wish = Queue(f: Functor) | Stop

  datatype Ask = Ask(caller: Caller, wish: Wish)

  /** A functor is known by what is asked of the loop while it runs, by itself or by any other thread, in order. */
  datatype Functor = Functor(name: int, meanwhile: seq<Ask>)

  /** The functors queued by some calls, in order. */
  function Asked(asks: seq<Ask>): seq<Functor> {
    if asks == [] then []
    else
      var last := asks[|asks| - 1].wish;
      Asked(asks[..|asks| - 1]) + if last.Queue? then [last.f] else []
  }

  predicate Stops(asks: seq<Ask>) {
    exists i :: 0 <= i < |asks| && asks[i].wish.Stop?
  }

  lemma AskedSnoc(asks: seq<Ask>, i: nat)
    requires i < |asks|
    ensures Asked(asks[..i + 1]) == Asked(asks[..i]) + if asks[i].wish.Queue? then [asks[i].wish.f] else []
    ensures Stops(asks[..i + 1]) <==> Stops(asks[..i]) || asks[i].wish.Stop?
  {
    assert asks[..i + 1][..i] == asks[..i];
    if Stops(asks[..i]) {
      var k :| 0 <= k < i && asks[..i][k].wish.Stop?;
      assert asks[..i + 1][k].wish.Stop?;
    }
    if asks[i].wish.Stop? {
      assert asks[..i + 1][i].wish.Stop?;
    }
  }

  /** Everything that is queued while a batch runs, in order. */
  function QueuedBy(batch: seq<Functor>): seq<Functor> {
    if batch == [] then [] else Asked(batch[0].meanwhile) + QueuedBy(batch[1..])
  }

  /** Somebody quits the loop while the batch runs. */
  predicate StoppedBy(batch: seq<Functor>) {
    exists i :: 0 <= i < |batch| && Stops(batch[i].meanwhile)
  }

  lemma StoppedBySnoc(batch: seq<Functor>, f: Functor)
    ensures StoppedBy(batch + [f]) <==> StoppedBy(batch) || Stops(f.meanwhile)
  {
    if StoppedBy(batch) {
      var k :| 0 <= k < |batch| && Stops(batch[k].meanwhile);
      assert (batch + [f])[k] == batch[k];
    }
    assert (batch + [f])[|batch|] == f;
  }

  lemma {:induction false} QueuedBySnoc(batch: seq<Functor>, f: Functor)
    ensures QueuedBy(batch + [f]) == QueuedBy(batch) + Asked(f.meanwhile)
  {
    if batch == [] {
      assert QueuedBy([f][1..]) == [];
    } else {
      QueuedBySnoc(batch[1..], f);
      Regroup(Asked(batch[0].meanwhile), QueuedBy(batch[1..]), Asked(f.meanwhile));
      assert (batch + [f])[1..] == batch[1..] + [f];
    }
  }

  lemma {:induction false} ReachesOneMore<F>(s: Loop<F>, es: seq<Event<F>>, d: Loop<F>, e: Event<F>)
    requires Reaches(s, es, d) && Enabled(d, e)
    ensures Reaches(s, es + [e], Apply(d, e))
    decreases |es|
  {
    if es == [] {
      assert ([] + [e])[1..] == [];
      assert Reaches(Apply(s, e), [], Apply(d, e));
    } else {
      ReachesOneMore(Apply(s, es[0]), es[1..], d, e);
      assert (es + [e])[1..] == es[1..] + [e];
    }
  }

  /** Some sequence of protocol steps leads from s to d. */
  ghost predicate Leads<F(!new)>(s: Loop<F>, d: Loop<F>) {
    exists es :: Reaches(s, es, d)
  }

  lemma LeadsNowhere<F(!new)>(s: Loop<F>)
    ensures Leads(s, s)
  {
    assert Reaches(s, [], s);
  }

  lemma LeadsOneMore<F(!new)>(s: Loop<F>, d: Loop<F>, e: Event<F>)
    requires Leads(s, d) && Enabled(d, e) && Inv(d)
    ensures Leads(s, Apply(d, e)) && Inv(Apply(d, e))
  {
    var es :| Reaches(s, es, d);
    ReachesOneMore(s, es, d, e);
    ApplyInv(d, e);
  }

  /** The two steps of an uninterrupted queueInLoop. */
  function AskStep(caller: Caller, f: Functor): Event<Functor> {
    match caller case Other(t) => Enqueue(t, f) case LoopThread => LoopEnqueue(f)
  }

  function Woken(caller: Caller): Event<Functor> {
    match caller case Other(t) => Wake(t) case LoopThread => LoopWake
  }

  function AfterQueueInLoop(s: Loop<Functor>, f: Functor, caller: Caller): Loop<Functor>
    requires Inv(s) && Enabled(s, AskStep(caller, f))
  {
    var asked := Apply(s, AskStep(caller, f));
    if caller.Other? || s.calling then Apply(asked, Woken(caller)) else asked
  }

  lemma QueueInLoopLeads(start: Loop<Functor>, s: Loop<Functor>, f: Functor, caller: Caller)
    requires Leads(start, s) && Inv(s) && Enabled(s, AskStep(caller, f))
    ensures var d := AfterQueueInLoop(s, f, caller);
            && Leads(start, d) && Inv(d)
            && d == s.(pending := s.pending + [f], queued := s.queued + [f], silent := d.silent,
                       counter := s.counter + if caller.Other? || s.calling then 1 else 0)
  {
    LeadsOneMore(start, s, AskStep(caller, f));
    if caller.Other? || s.calling {
      LeadsOneMore(start, Apply(s, AskStep(caller, f)), Woken(caller));
    }
  }

  class EventLoop {
    var quit: bool
    var callingPendingFunctors: bool
    var counter: nat
    var pendingFunctors: seq<Functor>
    ghost var pc: Pc
    var reported: bool              // the eventfd is among the active channels
    ghost var batch: seq<Functor>
    ghost var owing: set<Thread>
    ghost var loopOwes: bool
    ghost var silent: bool
    ghost var queued: seq<Functor>
    ghost var executed: seq<Functor>

    ghost function View(): Loop<Functor>
      reads this
    {
      LoopProtocol.Loop.Loop(pc, quit, callingPendingFunctors, counter, reported, pendingFunctors, batch, owing, loopOwes, silent, queued, executed)
    }

    constructor ()
      ensures View() == Start()
    {
      quit, callingPendingFunctors, counter, pendingFunctors := false, false, 0, [];
      pc, reported, batch, owing, loopOwes, silent, queued, executed := Outside, false, [], {}, false, false, [], [];
    }

    method Wakeup()
      modifies this`counter
      ensures counter == old(counter) + 1
    {
      counter := counter + 1;
    }

    /** The change under the mutex, and the wakeup when one is called for. */
    method QueueInLoop(f: Functor, caller: Caller)
      requires Inv(View()) && Enabled(View(), AskStep(caller, f))
      modifies this`pendingFunctors, this`queued, this`silent, this`counter
      ensures View() == AfterQueueInLoop(old(View()), f, caller)
    {
      pendingFunctors := pendingFunctors + [f];
      queued := queued + [f];
      if caller.LoopThread? && pc == Outside { silent := true; }
      assert caller.Other? ==> owing + {caller.t} - {caller.t} == owing;
      if caller.Other? || callingPendingFunctors {
        Wakeup();
      }
    }

    /** Runs cb at once on the loop thread, with all that is queued meanwhile, and queues it from any other. */
    method RunInLoop(cb: Functor, caller: Caller) returns (now: bool)
      requires Inv(View()) && Enabled(View(), AskStep(caller, cb)) && (caller.LoopThread? ==> owing == {})
      modifies this`pendingFunctors, this`queued, this`silent, this`counter, this`quit
      ensures now <==> caller.LoopThread?
      ensures quit <==> old(quit) || (now && Stops(cb.meanwhile))
      ensures Inv(View()) && Leads(old(View()), View())
      ensures pendingFunctors == old(pendingFunctors) + if now then Asked(cb.meanwhile) else [cb]
      ensures !now ==> View() == AfterQueueInLoop(old(View()), cb, caller)
    {
      now := caller.LoopThread?;
      LeadsNowhere(View());
      if now {
        ServeEach(cb.meanwhile, View());
      } else {
        QueueInLoopLeads(View(), View(), cb, caller);
        QueueInLoop(cb, caller);
      }
    }

    method Quit(caller: Caller)
      requires Enabled(View(), match caller case Other(t) => AskToQuit(t) case LoopThread => LoopQuit)
      modifies this`quit, this`counter
      ensures caller.LoopThread? ==> View() == Apply(old(View()), LoopQuit)
      ensures caller.Other? ==> View() == Apply(Apply(old(View()), AskToQuit(caller.t)), Wake(caller.t))
    {
      quit := true;
      assert caller.Other? ==> owing + {caller.t} - {caller.t} == owing;
      if caller.Other? {
        Wakeup();
      }
    }

    method HandleRead()
      requires Enabled(View(), LoopProtocol.HandleRead)
      modifies this`counter, this`reported
      ensures View() == Apply(old(View()), LoopProtocol.HandleRead)
      ensures counter == 0 && !reported
    {
      counter := 0;
      reported := false;
    }

    /**
     Swaps the queue out and runs it. Functors queued meanwhile, by the batch itself or by other threads,
     stay for the next time, and then the eventfd is readable, so that the next poll cannot sleep. A quit
     meanwhile takes effect only after the batch.
    */
    method DoPendingFunctors()
      requires Inv(View()) && Enabled(View(), BeginFunctors) && owing == {}
      modifies this`callingPendingFunctors, this`pc, this`batch, this`pendingFunctors, this`silent, this`queued, this`counter, this`executed, this`quit
      ensures Leads(old(View()), View()) && Inv(View()) && pc == Check
      ensures quit <==> old(quit) || StoppedBy(old(pendingFunctors))
      ensures executed == old(executed) + old(pendingFunctors)
      ensures pendingFunctors == QueuedBy(old(pendingFunctors))
      ensures counter >= old(counter) + |pendingFunctors|
    {
      ghost var start := View();
      StartCalling();
      var functors := SwapOut(start);
      var i := 0;
      while i < |functors|
        invariant i <= |functors| && InBatch(start, functors, i)
      {
        RunNth(functors, i, start);
        i := i + 1;
      }
      assert functors[..i] == functors;
      FinishBatch(start);
    }

    /** Where the loop stands after i functors of its batch, having started from start. */
    ghost predicate InBatch(start: Loop<Functor>, functors: seq<Functor>, i: nat)
      requires i <= |functors|
      reads this
    {
      && Inv(View()) && Leads(start, View()) && pc == Running && !loopOwes && owing == {}
      && batch == functors[i..] && executed == start.executed + functors[..i]
      && pendingFunctors == QueuedBy(functors[..i]) && counter >= start.counter + |pendingFunctors|
      && (quit <==> start.quit || StoppedBy(functors[..i]))
    }

    method RunNth(functors: seq<Functor>, i: nat, ghost start: Loop<Functor>)
      requires i < |functors| && InBatch(start, functors, i)
      modifies this`pendingFunctors, this`queued, this`silent, this`counter, this`batch, this`executed, this`quit
      ensures InBatch(start, functors, i + 1)
    {
      RunOne(functors[i], start);
      QueuedBySnoc(functors[..i], functors[i]);
      StoppedBySnoc(functors[..i], functors[i]);
      assert functors[..i + 1] == functors[..i] + [functors[i]];
    }

    method FinishBatch(ghost start: Loop<Functor>)
      requires Inv(View()) && Leads(start, View()) && Enabled(View(), EndFunctors)
      modifies this`callingPendingFunctors, this`pc
      ensures Inv(View()) && Leads(start, View()) && pc == Check
    {
      LeadsOneMore(start, View(), EndFunctors);
      callingPendingFunctors := false;
      pc := Check;
    }

    method SwapOut(ghost start: Loop<Functor>) returns (functors: seq<Functor>)
      requires Inv(View()) && Leads(start, View()) && Enabled(View(), Swap)
      modifies this`pc, this`batch, this`pendingFunctors, this`silent
      ensures Leads(start, View()) && Inv(View()) && pc == Running && !loopOwes
      ensures functors == old(pendingFunctors) && batch == functors && pendingFunctors == []
    {
      LeadsOneMore(start, View(), Swap);
      functors := pendingFunctors;
      batch, pendingFunctors, silent, pc := pendingFunctors, [], false, Running;
    }

    method StartCalling()
      requires Inv(View()) && Enabled(View(), BeginFunctors)
      modifies this`callingPendingFunctors, this`pc
      ensures Leads(old(View()), View()) && Inv(View()) && Enabled(View(), Swap)
    {
      LeadsNowhere(View());
      LeadsOneMore(View(), View(), BeginFunctors);
      callingPendingFunctors := true;
      pc := Swapping;
    }

    /** One functor of the batch, with everything that is queued while it runs. */
    method RunOne(f: Functor, ghost start: Loop<Functor>)
      requires Inv(View()) && Leads(start, View()) && !loopOwes && pc == Running && batch != [] && batch[0] == f && owing == {}
      modifies this`pendingFunctors, this`queued, this`silent, this`counter, this`batch, this`executed, this`quit
      ensures Inv(View()) && Leads(start, View()) && (quit <==> old(quit) || Stops(f.meanwhile))
      ensures batch == old(batch)[1..] && executed == old(executed) + [f]
      ensures pendingFunctors == old(pendingFunctors) + Asked(f.meanwhile)
      ensures counter >= old(counter) + |Asked(f.meanwhile)|
    {
      LeadsOneMore(start, View(), Run);
      executed := executed + [batch[0]];
      batch := batch[1..];
      ServeEach(f.meanwhile, start);
    }

    /** Who asks may ask: another thread that owes no wakeup, or the loop thread between two steps of its own. */
    ghost predicate MayAsk(caller: Caller)
      reads this
    {
      match caller
      case Other(t) => t !in owing
      case LoopThread => !loopOwes && (pc == Outside || pc == Handling || pc == Running)
    }

    /** Calls one after the other, by a functor or a channel's callback and by other threads. */
    method ServeEach(asks: seq<Ask>, ghost start: Loop<Functor>)
      requires Inv(View()) && Leads(start, View()) && forall i :: 0 <= i < |asks| ==> MayAsk(asks[i].caller)
      modifies this`pendingFunctors, this`queued, this`silent, this`counter, this`quit
      ensures Inv(View()) && Leads(start, View())
      ensures pendingFunctors == old(pendingFunctors) + Asked(asks) && (quit <==> old(quit) || Stops(asks))
      ensures callingPendingFunctors ==> counter >= old(counter) + |Asked(asks)|
    {
      ghost var before := View();
      for i := 0 to |asks|
        invariant InAsks(start, before, asks, i) && callingPendingFunctors == before.calling
      {
        ServeNth(asks, i, before, start);
      }
      assert asks[..|asks|] == asks;
    }

    /** Where the loop stands after i of the calls. */
    ghost predicate InAsks(start: Loop<Functor>, before: Loop<Functor>, asks: seq<Ask>, i: nat)
      requires i <= |asks|
      reads this
    {
      && Inv(View()) && Leads(start, View())
      && pendingFunctors == before.pending + Asked(asks[..i]) && (quit <==> before.quit || Stops(asks[..i]))
      && (callingPendingFunctors ==> counter >= before.counter + |Asked(asks[..i])|)
    }

    method ServeNth(asks: seq<Ask>, i: nat, ghost before: Loop<Functor>, ghost start: Loop<Functor>)
      requires i < |asks| && InAsks(start, before, asks, i) && MayAsk(asks[i].caller)
      modifies this`pendingFunctors, this`queued, this`silent, this`counter, this`quit
      ensures InAsks(start, before, asks, i + 1)
    {
      AskedSnoc(asks, i);
      ServeNext(asks[i], start);
    }

    method ServeNext(a: Ask, ghost start: Loop<Functor>)
      requires Inv(View()) && Leads(start, View()) && MayAsk(a.caller)
      modifies this`pendingFunctors, this`queued, this`silent, this`counter, this`quit
      ensures Inv(View()) && Leads(start, View()) && (quit <==> old(quit) || a.wish.Stop?)
      ensures pendingFunctors == old(pendingFunctors) + if a.wish.Queue? then [a.wish.f] else []
      ensures callingPendingFunctors ==> counter >= old(counter) + if a.wish.Queue? then 1 else 0
    {
      match a.wish
      case Queue(f) => QueueNext(f, a.caller, start);
      case Stop => StopNext(a.caller, start);
    }

    method StopNext(caller: Caller, ghost start: Loop<Functor>)
      requires Inv(View()) && Leads(start, View()) && MayAsk(caller)
      modifies this`quit, this`counter
      ensures Inv(View()) && Leads(start, View()) && quit && counter >= old(counter)
    {
      match caller {
      case Other(t) =>
        LeadsOneMore(start, View(), AskToQuit(t));
        LeadsOneMore(start, Apply(View(), AskToQuit(t)), Wake(t));
      case LoopThread =>
        LeadsOneMore(start, View(), LoopQuit);
      }
      Quit(caller);
    }

    method QueueNext(f: Functor, caller: Caller, ghost start: Loop<Functor>)
      requires Inv(View()) && Leads(start, View()) && MayAsk(caller)
      modifies this`pendingFunctors, this`queued, this`silent, this`counter
      ensures Inv(View()) && Leads(start, View())
      ensures pendingFunctors == old(pendingFunctors) + [f]
      ensures counter == old(counter) + if caller.Other? || callingPendingFunctors then 1 else 0
    {
      QueueInLoopLeads(start, View(), f, caller);
      QueueInLoop(f, caller);
    }

    /**
     loop(), for as long as there are rounds to go: each polls, dispatches and runs what is queued. It
     stops after the first round somebody quits in, and no sooner; a quit made before it is forgotten.
    */
    method Loop(rounds: seq<Round>) returns (n: nat)
      requires Inv(View()) && pc == Outside && owing == {}
      modifies this
      ensures Inv(View()) && Leads(old(View()), View())
      ensures n <= |rounds| && Ongoing(old(pendingFunctors), rounds, n - 1)
      ensures if n > 0 && StoppedIn(old(pendingFunctors), rounds, n - 1) then pc == Outside && quit
              else n == |rounds| && pc == Check && !quit
      ensures executed == old(executed) + RanIn(old(pendingFunctors), rounds[..n])
      ensures pendingFunctors == Backlog(old(pendingFunctors), rounds[..n])
    {
      ghost var start := View();
      StartLooping();
      n := GoRounds(rounds, start);
      if quit {
        StopLooping(start);
      }
    }

    /** The loop of loop(). */
    method GoRounds(rounds: seq<Round>, ghost start: Loop<Functor>) returns (n: nat)
      requires Gone(start, rounds, 0)
      modifies this
      ensures n <= |rounds| && Gone(start, rounds, n) && (quit || n == |rounds|)
    {
      n := 0;
      while !quit && n < |rounds|
        invariant n <= |rounds| && Gone(start, rounds, n)
        decreases |rounds| - n
      {
        NextRound(rounds, n, start);
        n := n + 1;
      }
    }

    /** Where the loop stands after n rounds, having started from start. */
    ghost predicate Gone(start: Loop<Functor>, rounds: seq<Round>, n: nat)
      requires n <= |rounds|
      reads this
    {
      && Inv(View()) && Leads(start, View()) && pc == Check && owing == {}
      && Ongoing(start.pending, rounds, n - 1) && (quit <==> n > 0 && StoppedIn(start.pending, rounds, n - 1))
      && executed == start.executed + RanIn(start.pending, rounds[..n])
      && pendingFunctors == Backlog(start.pending, rounds[..n])
    }

    method NextRound(rounds: seq<Round>, n: nat, ghost start: Loop<Functor>)
      requires n < |rounds| && Gone(start, rounds, n) && !quit
      modifies this
      ensures Gone(start, rounds, n + 1)
    {
      ghost var before := executed;
      OneMoreRound(start.pending, rounds, n);
      GoRound(rounds[n], start);
      assert Ongoing(start.pending, rounds, n);
      Regroup(start.executed, RanIn(start.pending, rounds[..n]), InRound(Backlog(start.pending, rounds[..n]), rounds[n]));
    }

    method StartLooping()
      requires Inv(View()) && pc == Outside
      modifies this`quit, this`pc
      ensures Inv(View()) && Leads(old(View()), View()) && pc == Check && !quit
    {
      LeadsNowhere(View());
      LeadsOneMore(View(), View(), Enter);
      quit, pc := false, Check;
    }

    method StopLooping(ghost start: Loop<Functor>)
      requires Inv(View()) && Leads(start, View()) && pc == Check && quit
      modifies this`pc
      ensures Inv(View()) && Leads(start, View()) && pc == Outside
    {
      LeadsOneMore(start, View(), Leave);
      pc := Outside;
    }

    /** One time round the loop. */
    method GoRound(round: Round, ghost start: Loop<Functor>)
      requires Inv(View()) && Leads(start, View()) && pc == Check && !quit && owing == {}
      modifies this
      ensures Inv(View()) && Leads(start, View()) && pc == Check && owing == {}
      ensures quit <==> Stopped(old(pendingFunctors), round)
      ensures executed == old(executed) + InRound(old(pendingFunctors), round)
      ensures pendingFunctors == QueuedBy(InRound(old(pendingFunctors), round))
    {
      PollOnce(round, start);
      Dispatch(round.handled, start);
      ghost var before := View();
      DoPendingFunctors();
      LeadsThrough(start, before, View());
    }

    /** The time inside epoll_wait: other threads queue functors and quit; then it returns. */
    method PollOnce(round: Round, ghost start: Loop<Functor>)
      requires Inv(View()) && Leads(start, View()) && pc == Check && !quit && owing == {}
      modifies this`pc, this`reported, this`quit, this`counter, this`pendingFunctors, this`queued, this`silent
      ensures Inv(View()) && Leads(start, View()) && pc == Handling
      ensures (quit <==> Stops(FromOthers(round.asked))) && pendingFunctors == old(pendingFunctors) + Asked(FromOthers(round.asked))
    {
      StartPolling(start);
      ServeEach(FromOthers(round.asked), start);
      StopPolling(start);
    }

    method StartPolling(ghost start: Loop<Functor>)
      requires Inv(View()) && Leads(start, View()) && pc == Check && !quit
      modifies this`pc
      ensures Inv(View()) && Leads(start, View()) && pc == Polling
    {
      LeadsOneMore(start, View(), Poll);
      pc := Polling;
    }

    /** epoll_wait returns, with the eventfd if there is something to read on it. */
    method StopPolling(ghost start: Loop<Functor>)
      requires Inv(View()) && Leads(start, View()) && pc == Polling
      modifies this`pc, this`reported
      ensures Inv(View()) && Leads(start, View()) && pc == Handling
    {
      LeadsOneMore(start, View(), Return(counter > 0));
      pc, reported := Handling, counter > 0;
    }

    /** The active channels: the eventfd's, if it is one of them, and those whose callbacks queue functors. */
    method Dispatch(handled: seq<Ask>, ghost start: Loop<Functor>)
      requires Inv(View()) && Leads(start, View()) && pc == Handling && owing == {}
      modifies this`reported, this`counter, this`pendingFunctors, this`queued, this`silent, this`quit
      ensures Inv(View()) && Leads(start, View()) && !reported && (quit <==> old(quit) || Stops(handled))
      ensures pendingFunctors == old(pendingFunctors) + Asked(handled)
    {
      if reported {
        LeadsOneMore(start, View(), LoopProtocol.HandleRead);
        HandleRead();
      }
      ServeEach(handled, start);
    }
  }

  /** A call from another thread. */
  datatype Request = Request(t: Thread, wish: Wish)

  function FromOthers(asked: seq<Request>): (asks: seq<Ask>)
    ensures |asks| == |asked|
    ensures forall i :: 0 <= i < |asks| ==> asks[i] == Ask(Other(asked[i].t), asked[i].wish)
  {
    seq(|asked|, i requires 0 <= i < |asked| => Ask(Other(asked[i].t), asked[i].wish))
  }

  /**
   What the world does in one round of the loop: what other threads ask while it polls, and what the
   callbacks of the active channels, and other threads meanwhile, ask.
  */
  datatype Round = Round(asked: seq<Request>, handled: seq<Ask>)

  /** The batch of a round that starts with this backlog. */
  function InRound(backlog: seq<Functor>, round: Round): seq<Functor> {
    backlog + Asked(FromOthers(round.asked)) + Asked(round.handled)
  }

  /** Somebody quits the loop in the round. */
  predicate Stopped(backlog: seq<Functor>, round: Round) {
    Stops(FromOthers(round.asked)) || Stops(round.handled) || StoppedBy(InRound(backlog, round))
  }

  /** ... in the round after the first k. */
  predicate StoppedIn(waiting: seq<Functor>, rounds: seq<Round>, k: nat)
    requires k < |rounds|
  {
    Stopped(Backlog(waiting, rounds[..k]), rounds[k])
  }

  /** Nobody quits the loop in the first m rounds. */
  predicate Ongoing(waiting: seq<Functor>, rounds: seq<Round>, m: int)
    requires m <= |rounds|
  {
    forall k: nat :: k < m ==> !StoppedIn(waiting, rounds, k)
  }

  /** What is waiting after some rounds. */
  function Backlog(waiting: seq<Functor>, rounds: seq<Round>): seq<Functor> {
    if rounds == [] then waiting
    else
      var n := |rounds| - 1;
      QueuedBy(InRound(Backlog(waiting, rounds[..n]), rounds[n]))
  }

  /** What some rounds run. */
  function RanIn(waiting: seq<Functor>, rounds: seq<Round>): seq<Functor> {
    if rounds == [] then []
    else
      var n := |rounds| - 1;
      RanIn(waiting, rounds[..n]) + InRound(Backlog(waiting, rounds[..n]), rounds[n])
  }

  lemma Regroup<T>(a: seq<T>, b: seq<T>, c: seq<T>)
    ensures (a + b) + c == a + (b + c)
  {
  }

  lemma OneMoreRound(waiting: seq<Functor>, rounds: seq<Round>, n: nat)
    requires n < |rounds|
    ensures var now := Backlog(waiting, rounds[..n]);
            && RanIn(waiting, rounds[..n + 1]) == RanIn(waiting, rounds[..n]) + InRound(now, rounds[n])
            && Backlog(waiting, rounds[..n + 1]) == QueuedBy(InRound(now, rounds[n]))
  {
    assert rounds[..n + 1][..n] == rounds[..n];
  }

  lemma {:induction false} ReachesThrough<F>(s: Loop<F>, es: seq<Event<F>>, m: Loop<F>, fs: seq<Event<F>>, d: Loop<F>)
    requires Reaches(s, es, m) && Reaches(m, fs, d)
    ensures Reaches(s, es + fs, d)
    decreases |es|
  {
    if es == [] {
      assert [] + fs == fs;
    } else {
      ReachesThrough(Apply(s, es[0]), es[1..], m, fs, d);
      assert (es + fs)[1..] == es[1..] + fs;
    }
  }

  lemma LeadsThrough<F(!new)>(s: Loop<F>, m: Loop<F>, d: Loop<F>)
    requires Leads(s, m) && Leads(m, d)
    ensures Leads(s, d)
  {
    var es :| Reaches(s, es, m);
    var fs :| Reaches(m, fs, d);
    ReachesThrough(s, es, m, fs, d);
  }
}
