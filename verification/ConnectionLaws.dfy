/**
 What each event does to a connection, said from what was asked for and what the kernel answered, and
 each field of a connection as the sum of its history.
*/
module ConnectionLaws {
  import opened Bytes
  import opened ChannelStates
  import opened Connections
  import opened ConnectionTheorems
  import opened ConnectionRuns

  // ----- Sending -----

  /** Nothing asked the poller for write events, nothing is pending, and the connection is not closed: a send writes at once. */
  predicate Clear(c: Conn) {
    c.state != Disconnected && !c.Writing() && c.output == []
  }

  /**
   A send by what write answered, if it was called: what it took is on the wire, the rest is pending. After
   an error that loses the peer nothing is; after any other the byte before the data comes first, and the
   last one is lost. If write was not called all of the data is pending, behind what was.
  */
  lemma SendInLoopExactly(c: Conn, before: Byte, data: seq<Byte>, r: WriteResult)
    requires Fits(r, |data|)
    ensures var d := SendInLoop(c, before, data, r);
            if c.state == Disconnected then d == c
            else if !Clear(c) then Sent(c, d, data, c.wire, c.output + data)
            else
              match r
              case Wrote(n) => Sent(c, d, data, c.wire + data[..n], data[n..])
              case Stalled => Sent(c, d, data, c.wire, ([before] + data)[..|data|])
              case Faulted => d.state == Disconnected && d.wire == c.wire && d.output == c.output && d.accepted == c.accepted
  {
    if Accepts(c, r) {
      AfterWriteFrame(c, data, r);
      WrittenIs(c, data, r);
      KeepRestEffect(AfterWrite(c, data, r), Unsent(before, data, Written(c, data, r)));
      UnsentIs(before, data, Written(c, data, r));
    }
  }

  ghost predicate Sent(c: Conn, d: Conn, data: seq<Byte>, wire: seq<Byte>, output: seq<Byte>) {
    d.state == c.state && d.wire == wire && d.output == output && d.accepted == c.accepted + data
  }

  lemma UnsentIs(before: Byte, data: seq<Byte>, n: int)
    requires -1 <= n <= |data|
    ensures Unsent(before, data, n) == if n < 0 then ([before] + data)[..|data|] else data[n..]
  {
    if n >= 0 {
      UnsentIsSuffix(before, data, n);
    }
  }

  /** What the kernel took in a step. */
  function TakenBy(c: Conn, e: Event): seq<Byte>
    requires Enabled(c, e)
  {
    match e
    case Send(_, data, r) => if c.state == Connected && Clear(c) && r.Wrote? then data[..r.n] else []
    case RunSend(_, data, r) => if Clear(c) && r.Wrote? then data[..r.n] else []
    case Writable(r) => if c.Writing() && r.Wrote? then c.output[..r.n] else []
    case _ => []
  }

  lemma WireStep(c: Conn, e: Event)
    requires Enabled(c, e)
    ensures Apply(c, e).wire == c.wire + TakenBy(c, e)
  {
    StepShape(c, e);
    match e
    case Send(before, data, r) => SendInLoopExactly(c, before, data, r);
    case RunSend(before, data, r) => SendInLoopExactly(Taken(c, e), before, data, r);
    case Writable(r) => HandleWriteEffect(c, r);
    case _ =>
  }

  ghost function TakenIn(cs: seq<Conn>, es: seq<Event>, i: nat): seq<Byte>
    requires IsRun(cs, es) && i <= |es|
  {
    if i == 0 then []
    else
      assert StepAt(cs, es, i - 1);
      TakenIn(cs, es, i - 1) + TakenBy(cs[i - 1], es[i - 1])
  }

  /** On every run the wire is what the write calls took, one after the other. */
  lemma {:induction false} WireIsWhatWasTaken(cs: seq<Conn>, es: seq<Event>, i: nat)
    requires IsRun(cs, es) && i <= |es|
    ensures cs[i].wire == TakenIn(cs, es, i)
  {
    if i > 0 {
      assert StepAt(cs, es, i - 1);
      WireIsWhatWasTaken(cs, es, i - 1);
      WireStep(cs[i - 1], es[i - 1]);
    }
  }

  // ----- Receiving -----

  function Received(e: Event): seq<Byte> {
    if e.Readable? && e.read.ReadBytes? then e.read.bytes else []
  }

  /** What the application takes from the input buffer: the front of it, all of it if it asks for more. */
  function Consumed(c: Conn, e: Event): seq<Byte> {
    if e.Consume? then c.input[..if e.len < |c.input| then e.len else |c.input|] else []
  }

  lemma InputStep(c: Conn, e: Event)
    requires Enabled(c, e)
    ensures c.input + Received(e) == Consumed(c, e) + Apply(c, e).input
  {
    InputFrame(c, e);
    if e.Consume? {
      assert c.input == Consumed(c, e) + Apply(c, e).input;
    }
  }

  lemma InputFrame(c: Conn, e: Event)
    requires Enabled(c, e)
    ensures !e.Consume? ==> Apply(c, e).input == c.input + Received(e)
  {
    StepShape(c, e);
    if Sends(c, e) {
      SendInLoopEffect(Taken(c, e), e.before, e.data, e.result);
    } else if e.Writable? {
      HandleWriteEffect(c, e.result);
    }
  }

  function ReceivedIn(es: seq<Event>, i: nat): seq<Byte>
    requires i <= |es|
  {
    if i == 0 then [] else ReceivedIn(es, i - 1) + Received(es[i - 1])
  }

  function ConsumedIn(cs: seq<Conn>, es: seq<Event>, i: nat): seq<Byte>
    requires |cs| == |es| + 1 && i <= |es|
  {
    if i == 0 then [] else ConsumedIn(cs, es, i - 1) + Consumed(cs[i - 1], es[i - 1])
  }

  /** On every run what was received is what the application has taken followed by what is in the input buffer, in order. */
  lemma {:induction false} InputIsWhatCame(cs: seq<Conn>, es: seq<Event>, i: nat)
    requires IsRun(cs, es) && i <= |es|
    ensures ReceivedIn(es, i) == ConsumedIn(cs, es, i) + cs[i].input
  {
    if i > 0 {
      assert StepAt(cs, es, i - 1);
      InputIsWhatCame(cs, es, i - 1);
      InputStep(cs[i - 1], es[i - 1]);
      Passed(ConsumedIn(cs, es, i - 1), cs[i - 1].input, Received(es[i - 1]), Consumed(cs[i - 1], es[i - 1]), cs[i].input);
    }
  }

  lemma Passed<T>(consumed: seq<T>, input: seq<T>, more: seq<T>, taken: seq<T>, input': seq<T>)
    requires input + more == taken + input'
    ensures (consumed + input) + more == (consumed + taken) + input'
  {
    assert (consumed + input) + more == consumed + (input + more);
    assert (consumed + taken) + input' == consumed + (taken + input');
  }

  // ----- Callbacks -----

  /** The callbacks due to an event: up, message, down, and down with close. */
  predicate CalledBack(c: Conn, e: Event, more: seq<Note>) {
    && (Up in more <==> e.Establish?)
    && (Message in more <==> Received(e) != [])
    && (Closes(c, e) ==> more == [Down, Closed])
    && (Down in more <==> Closes(c, e) || (e.Destroy? && c.state == Connected))
    && (Closed in more <==> Closes(c, e))
  }

  /** Exactly these are made. */
  lemma CallbacksMade(c: Conn, e: Event)
    requires Enabled(c, e)
    ensures c.notes <= Apply(c, e).notes && CalledBack(c, e, NewNotes(c, Apply(c, e)))
  {
    if Sends(c, e) {
      SendCallsBack(c, e);
    } else if e.Writable? {
      WriteCallsBack(c, e.result);
    } else {
      PlainCallsBack(c, e);
    }
  }

  lemma SendCallsBack(c: Conn, e: Event)
    requires Enabled(c, e) && Sends(c, e)
    ensures c.notes <= Apply(c, e).notes && CalledBack(c, e, NewNotes(c, Apply(c, e)))
  {
    StepShape(c, e);
    SendNotes(Taken(c, e), e.before, e.data, e.result);
  }

  lemma WriteCallsBack(c: Conn, r: WriteResult)
    requires Enabled(c, Writable(r))
    ensures c.notes <= HandleWrite(c, r).notes && CalledBack(c, Writable(r), NewNotes(c, HandleWrite(c, r)))
  {
    var p := Drains(c, r) && c.opts.wantsWriteComplete;
    var q := Drains(c, r) && c.state == Disconnecting && c.opts.drain == Intended;
    WriteNotes(c, r, p, q);
    TwoNotes(NewNotes(c, HandleWrite(c, r)), p, WriteComplete, q, Fin);
  }

  lemma WriteNotes(c: Conn, r: WriteResult, p: bool, q: bool)
    requires Fits(r, |c.output|)
    requires p == (Drains(c, r) && c.opts.wantsWriteComplete)
    requires q == (Drains(c, r) && c.state == Disconnecting && c.opts.drain == Intended)
    ensures c.notes <= HandleWrite(c, r).notes
    ensures NewNotes(c, HandleWrite(c, r)) == If(p, WriteComplete) + If(q, Fin)
  {
    HandleWriteEffect(c, r);
  }

  lemma PlainCallsBack(c: Conn, e: Event)
    requires Enabled(c, e) && !Sends(c, e) && !e.Writable?
    ensures c.notes <= Apply(c, e).notes && CalledBack(c, e, NewNotes(c, Apply(c, e)))
  {
    PlainStep(c, e);
    assert NewNotes(c, Apply(c, e)) == PlainNotes(c, e);
  }

  // ----- The state -----

  /** Write is called on a peer that is gone. */
  predicate FindsPeerGone(c: Conn, r: WriteResult) {
    Clear(c) && r.Faulted?
  }

  /** The state after each event. */
  function NextState(c: Conn, e: Event): State {
    match e
    case Establish => Connected
    case Send(_, _, r) => if c.state == Connected && FindsPeerGone(c, r) then Disconnected else c.state
    case RunSend(_, _, r) => if FindsPeerGone(c, r) then Disconnected else c.state
    case ShutdownHere => if c.state == Connected then Disconnecting else c.state
    case EndShutdown => Disconnecting
    case Readable(r) => if r == ReadBytes([]) then Disconnected else c.state
    case HangUp => Disconnected
    case Destroy => if c.state == Connected then Disconnected else c.state
    case _ => c.state
  }

  lemma StateStep(c: Conn, e: Event)
    requires Enabled(c, e)
    ensures Apply(c, e).state == NextState(c, e)
  {
    StepShape(c, e);
    match e
    case Send(before, data, r) => SendInLoopExactly(c, before, data, r);
    case RunSend(before, data, r) => SendInLoopExactly(Taken(c, e), before, data, r);
    case Writable(r) => HandleWriteEffect(c, r);
    case _ =>
  }

  predicate Leaves(c: Conn, e: Event) {
    c.state == Connected && NextState(c, e) != Connected
  }

  ghost predicate Began(es: seq<Event>, i: nat)
    requires i <= |es|
  {
    exists k :: 0 <= k < i && es[k].Establish?
  }

  ghost predicate Left(cs: seq<Conn>, es: seq<Event>, i: nat)
    requires |cs| == |es| + 1 && i <= |es|
  {
    exists k :: 0 <= k < i && Leaves(cs[k], es[k])
  }

  lemma HistoryStep(cs: seq<Conn>, es: seq<Event>, i: nat)
    requires |cs| == |es| + 1 && 0 < i <= |es|
    ensures Began(es, i) <==> Began(es, i - 1) || es[i - 1].Establish?
    ensures Left(cs, es, i) <==> Left(cs, es, i - 1) || Leaves(cs[i - 1], es[i - 1])
  {
  }

  /** On every run: connected exactly from connectEstablished to the first shutdown, close or end. */
  lemma {:induction false} ConnectedExactly(cs: seq<Conn>, es: seq<Event>, i: nat)
    requires IsRun(cs, es) && i <= |es|
    ensures cs[i].state == Connecting <==> !Began(es, i)
    ensures cs[i].state == Connected <==> Began(es, i) && !Left(cs, es, i)
    ensures Left(cs, es, i) ==> Began(es, i)
  {
    if i > 0 {
      assert StepAt(cs, es, i - 1);
      ConnectedExactly(cs, es, i - 1);
      RunInv(cs, es, i - 1);
      StateStep(cs[i - 1], es[i - 1]);
      Onwards(cs[i - 1], es[i - 1]);
      HistoryStep(cs, es, i);
    }
  }

  /** Connecting, then connected, then neither: there is no way back. */
  lemma Onwards(c: Conn, e: Event)
    requires Inv(c) && Enabled(c, e)
    ensures NextState(c, e) == Connecting <==> c.state == Connecting && !e.Establish?
    ensures NextState(c, e) == Connected <==> e.Establish? || (c.state == Connected && !Leaves(c, e))
  {
  }

  /**
   After a shutdown on the loop's own thread the connection is never connected again, and no further send()
   has any effect.
  */
  lemma {:induction false} ShutdownIsFinal(cs: seq<Conn>, es: seq<Event>, k: nat, j: nat)
    requires IsRun(cs, es) && k < j <= |es| && es[k] == ShutdownHere && cs[k].state == Connected
    ensures cs[k + 1].state == Disconnecting
    ensures cs[j].state == Disconnecting || cs[j].state == Disconnected
    ensures j < |es| && es[j].Send? ==> cs[j + 1] == cs[j]
    decreases j
  {
    assert StepAt(cs, es, k);
    StateStep(cs[k], es[k]);
    if k + 1 < j {
      assert StepAt(cs, es, j - 1);
      ShutdownIsFinal(cs, es, k, j - 1);
      StateStep(cs[j - 1], es[j - 1]);
    }
    if j < |es| {
      assert StepAt(cs, es, j);
    }
  }

  // ----- Other threads -----

  /** How often an event came. */
  function Times(es: seq<Event>, e: Event, i: nat): nat
    requires i <= |es|
  {
    if i == 0 then 0 else Times(es, e, i - 1) + if es[i - 1] == e then 1 else 0
  }

  function One(b: bool): nat {
    if b then 1 else 0
  }

  lemma ThreadsStep(c: Conn, e: Event, data: seq<Byte>)
    requires Enabled(c, e)
    ensures var d := Apply(c, e);
            && d.sending[data] + One(e == EndSend(data)) == c.sending[data] + One(e == BeginSend(data))
            && d.stopping + One(e == EndShutdown) + One(e == LoseShutdown) == c.stopping + One(e == BeginShutdown)
            && d.halting + One(e == RunShutdown) == c.halting + One(e == EndShutdown) + One(e == LoseShutdown)
  {
    ThreadsFrame(c, e);
  }

  lemma ThreadsFrame(c: Conn, e: Event)
    requires Enabled(c, e)
    ensures var d := Apply(c, e);
            && d.sending == (if e.BeginSend? then c.sending + multiset{e.data}
                             else if e.EndSend? then c.sending - multiset{e.data} else c.sending)
            && d.stopping == c.stopping + One(e == BeginShutdown) - One(e == EndShutdown || e == LoseShutdown)
            && d.halting == c.halting + One(e == EndShutdown || e == LoseShutdown) - One(e == RunShutdown)
  {
    StepShape(c, e);
    if Sends(c, e) {
      SendInLoopEffect(Taken(c, e), e.before, e.data, e.result);
    } else if e.Writable? {
      HandleWriteEffect(c, e.result);
    }
  }

  /**
   On every run: the threads inside send() with some data are those that came in with it and have not
   queued it; those inside shutdown() came in and have not stored; and the shutdownInLoop calls that wait
   were queued by a store, in time, late or lost, and have not run.
  */
  lemma {:induction false} ThreadsInFlight(cs: seq<Conn>, es: seq<Event>, i: nat, data: seq<Byte>)
    requires IsRun(cs, es) && i <= |es|
    ensures cs[i].sending[data] + Times(es, EndSend(data), i) == Times(es, BeginSend(data), i)
    ensures cs[i].stopping + Times(es, EndShutdown, i) + Times(es, LoseShutdown, i) == Times(es, BeginShutdown, i)
    ensures cs[i].halting + Times(es, RunShutdown, i) == Times(es, EndShutdown, i) + Times(es, LoseShutdown, i)
  {
    if i > 0 {
      assert StepAt(cs, es, i - 1);
      ThreadsInFlight(cs, es, i - 1, data);
      ThreadsStep(cs[i - 1], es[i - 1], data);
    }
  }
}
