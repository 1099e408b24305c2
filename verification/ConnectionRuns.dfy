/** The promises of a connection over whole runs, and the exact price of its three slips. */
module ConnectionRuns {
  import opened Bytes
  import opened ChannelStates
  import opened Connections
  import opened ConnectionTheorems

  // ----- The byte stream -----

  /** A send that loses its place in memory: a direct write that failed without losing the peer. */
  predicate Slips(c: Conn, r: WriteResult) {
    WritesDirectly(c) && r.Stalled?
  }

  predicate Repeats(before: Byte, data: seq<Byte>) {
    forall i :: 0 <= i < |data| ==> data[i] == before
  }

  /** No slip, or one that cannot be seen because the data only repeats the byte before it. */
  predicate Harmless(c: Conn, e: Event) {
    match e
    case Send(before, data, r) => c.state == Connected && Slips(c, r) ==> Repeats(before, data)
    case RunSend(before, data, r) => Slips(c, r) ==> Repeats(before, data)
    case _ => true
  }

  lemma {:induction false} PrefixRepeats(before: Byte, data: seq<Byte>, n: nat)
    requires Unsent(before, data, -1) == data && n <= |data|
    ensures Repeats(before, data[..n])
  {
    if n > 0 {
      PrefixRepeats(before, data, n - 1);
      assert Unsent(before, data, -1)[n - 1] == data[n - 1];
      assert n > 1 ==> data[n - 2] == data[..n - 1][n - 2];
    }
  }

  lemma SlipIsInvisible(before: Byte, data: seq<Byte>)
    ensures Unsent(before, data, -1) == data <==> Repeats(before, data)
  {
    if Unsent(before, data, -1) == data {
      PrefixRepeats(before, data, |data|);
      assert data[..|data|] == data;
    }
  }

  ghost predicate Aligned(c: Conn) {
    |c.Stream()| == |c.accepted|
  }

  lemma SameTails(a: seq<Byte>, b: seq<Byte>, x: seq<Byte>, y: seq<Byte>)
    requires |a| == |b| && |x| == |y|
    ensures a + x == b + y <==> a == b && x == y
  {
    if a + x == b + y {
      assert a == (a + x)[..|a|] && b == (b + y)[..|b|];
      assert x == (a + x)[|a|..] && y == (b + y)[|b|..];
    }
  }

  lemma SendStream(c: Conn, before: Byte, data: seq<Byte>, r: WriteResult)
    requires Aligned(c) && Fits(r, |data|)
    ensures var d := SendInLoop(c, before, data, r);
            Aligned(d) && (d.Stream() == d.accepted <==>
                             c.Stream() == c.accepted && (c.state != Disconnected && Slips(c, r) ==> Repeats(before, data)))
  {
    if Accepts(c, r) {
      SendInLoopEffect(c, before, data, r);
      SameTails(c.Stream(), c.accepted, Kept(c, before, data, r), data);
      SlipIsInvisible(before, data);
    }
  }

  lemma StepStream(c: Conn, e: Event)
    requires Aligned(c) && Enabled(c, e)
    ensures var d := Apply(c, e);
            Aligned(d) && (d.Stream() == d.accepted <==> c.Stream() == c.accepted && Harmless(c, e))
  {
    StepShape(c, e);
    if Sends(c, e) {
      SendStream(Taken(c, e), e.before, e.data, e.result);
    } else if e.Writable? {
      HandleWriteEffect(c, e.result);
    }
  }

  /**
   On every run, even a racy one: what the kernel took followed by what is buffered is exactly what was
   accepted, in order, if and only if no direct write ever failed without a fault, but for data that
   merely repeats the byte before it. Its length is right in any case.
  */
  lemma {:induction false} StreamConservation(cs: seq<Conn>, es: seq<Event>, i: nat)
    requires IsRun(cs, es) && i <= |es|
    ensures |cs[i].Stream()| == |cs[i].accepted|
    ensures cs[i].Stream() == cs[i].accepted <==> forall k :: 0 <= k < i ==> Harmless(cs[k], es[k])
  {
    if i > 0 {
      assert StepAt(cs, es, i - 1);
      StreamConservation(cs, es, i - 1);
      StepStream(cs[i - 1], es[i - 1]);
    }
  }

  /** A slip as it happens: the application sends 1 2, and the peer will read the byte before it and 1. */
  lemma SlipExample(fd: int, opts: Options)
    ensures var cs := [Fresh(fd, opts), ConnectEstablished(Fresh(fd, opts)),
                       SendInLoop(ConnectEstablished(Fresh(fd, opts)), 0, [1, 2], Stalled)];
            IsRun(cs, [Establish, Send(0, [1, 2], Stalled)])
            && cs[2].accepted == [1, 2] && cs[2].Stream() == [0, 1]
  {
    var c := ConnectEstablished(Fresh(fd, opts));
    SendInLoopEffect(c, 0, [1, 2], Stalled);
    assert Unsent(0, [1, 2], -1) == [0, 1];
  }

  // ----- Notes: what a step reports -----

  function NewNotes(c: Conn, d: Conn): seq<Note>
    requires c.notes <= d.notes
  {
    d.notes[|c.notes|..]
  }

  /** A step takes the pending length from below the high-water mark to it or beyond. */
  predicate Crosses(c: Conn, d: Conn) {
    |c.output| < c.opts.mark <= |d.output|
  }

  predicate CompletesAtOnce(c: Conn, data: seq<Byte>, r: WriteResult) {
    WritesDirectly(c) && r == Wrote(|data|)
  }

  lemma SendNotes(c: Conn, before: Byte, data: seq<Byte>, r: WriteResult)
    requires Fits(r, |data|) && Accepts(c, r)
    ensures var d := SendInLoop(c, before, data, r);
            && c.notes <= d.notes
            && NewNotes(c, d) == If(CompletesAtOnce(c, data, r) && c.opts.wantsWriteComplete, WriteComplete)
                                 + If(Crosses(c, d) && c.opts.wantsHighWater, HighWater(|d.output|))
  {
    var d := SendInLoop(c, before, data, r);
    var a := AfterWrite(c, data, r);
    assert a.notes == c.notes + If(CompletesAtOnce(c, data, r) && c.opts.wantsWriteComplete, WriteComplete);
    assert d.notes == a.notes + If(Crosses(c, d) && c.opts.wantsHighWater, HighWater(|d.output|));
  }

  predicate Halts(c: Conn, e: Event) {
    e.RunShutdown? || (e.ShutdownHere? && c.state == Connected)
  }

  predicate DrainsNow(c: Conn, e: Event)
    requires Enabled(c, e)
  {
    e.Writable? && Drains(c, e.result)
  }

  /** The output changes only by an accepted send, which adds to it, or a write event, which takes from it. */
  lemma OutputStep(c: Conn, e: Event)
    requires Enabled(c, e)
    ensures var d := Apply(c, e);
            && (Sends(c, e) ==> |c.output| <= |d.output|)
            && (e.Writable? ==> |d.output| <= |c.output| && (c.output != [] && d.output == [] <==> DrainsNow(c, e)))
            && (!Sends(c, e) && !e.Writable? ==> d.output == c.output)
  {
    StepShape(c, e);
    if Sends(c, e) {
      SendInLoopEffect(Taken(c, e), e.before, e.data, e.result);
    } else if e.Writable? {
      HandleWriteEffect(c, e.result);
    }
  }

  predicate CompletesNow(c: Conn, e: Event) {
    match e
    case Send(_, data, r) => c.state == Connected && CompletesAtOnce(c, data, r)
    case RunSend(_, data, r) => CompletesAtOnce(c, data, r)
    case _ => false
  }

  ghost predicate ReportsExactly(c: Conn, d: Conn, complete: bool, fin: bool) {
    && c.notes <= d.notes
    && (WriteComplete in NewNotes(c, d) <==> complete && c.opts.wantsWriteComplete)
    && (forall n :: HighWater(n) in NewNotes(c, d) <==> c.opts.wantsHighWater && Crosses(c, d) && n == |d.output|)
    && (Fin in NewNotes(c, d) <==> fin)
  }

  lemma TwoNotes(notes: seq<Note>, p: bool, n: Note, q: bool, m: Note)
    requires notes == If(p, n) + If(q, m)
    ensures forall x :: x in notes <==> (p && x == n) || (q && x == m)
  {
  }

  lemma SendReports(c: Conn, before: Byte, data: seq<Byte>, r: WriteResult)
    requires Fits(r, |data|) && Accepts(c, r)
    ensures ReportsExactly(c, SendInLoop(c, before, data, r), CompletesAtOnce(c, data, r), false)
  {
    var d := SendInLoop(c, before, data, r);
    SendNotes(c, before, data, r);
    TwoNotes(NewNotes(c, d), CompletesAtOnce(c, data, r) && c.opts.wantsWriteComplete, WriteComplete,
             Crosses(c, d) && c.opts.wantsHighWater, HighWater(|d.output|));
  }

  lemma WriteReports(c: Conn, r: WriteResult)
    requires Fits(r, |c.output|)
    ensures ReportsExactly(c, HandleWrite(c, r), Drains(c, r),
                           Drains(c, r) && c.opts.drain == Intended && c.state == Disconnecting)
  {
    HandleWriteEffect(c, r);
    TwoNotes(NewNotes(c, HandleWrite(c, r)), Drains(c, r) && c.opts.wantsWriteComplete, WriteComplete,
             Drains(c, r) && c.state == Disconnecting && c.opts.drain == Intended, Fin);
  }

  predicate IssuesFin(c: Conn, e: Event)
    requires Enabled(c, e)
  {
    || (Halts(c, e) && !c.Writing())
    || (DrainsNow(c, e) && c.opts.drain == Intended && c.state == Disconnecting)
  }

  /** Exactly when a step reports a write-complete, a high-water mark, or shuts down the sending side. */
  lemma StepReports(c: Conn, e: Event)
    requires Enabled(c, e)
    ensures ReportsExactly(c, Apply(c, e), DrainsNow(c, e) || CompletesNow(c, e), IssuesFin(c, e))
  {
    StepShape(c, e);
    if Sends(c, e) {
      SendReports(Taken(c, e), e.before, e.data, e.result);
    } else if e.Writable? {
      WriteReports(c, e.result);
    } else {
      PlainReports(c, e);
    }
  }

  /** What a step that neither sends nor writes reports. */
  function PlainNotes(c: Conn, e: Event): seq<Note> {
    match e
    case Establish => [Up]
    case Destroy => If(c.state == Connected, Down)
    case RunShutdown => If(!c.Writing(), Fin)
    case ShutdownHere => If(c.state == Connected && !c.Writing(), Fin)
    case Readable(r) => if r == ReadBytes([]) then [Down, Closed] else If(r.ReadBytes?, Message)
    case _ => if Closes(c, e) then [Down, Closed] else []
  }

  lemma PlainStep(c: Conn, e: Event)
    requires Enabled(c, e) && !Sends(c, e) && !e.Writable?
    ensures Apply(c, e).notes == c.notes + PlainNotes(c, e) && Apply(c, e).output == c.output
  {
    StepShape(c, e);
    if Closes(c, e) {
      assert Apply(c, e).notes == c.notes + [Down] + [Closed];
    }
  }

  lemma PlainReports(c: Conn, e: Event)
    requires Enabled(c, e) && !Sends(c, e) && !e.Writable?
    ensures ReportsExactly(c, Apply(c, e), false, Halts(c, e) && !c.Writing())
    ensures !CompletesNow(c, e)
  {
    PlainStep(c, e);
    assert NewNotes(c, Apply(c, e)) == PlainNotes(c, e);
    PlainNotesAre(c, e);
  }

  lemma PlainNotesAre(c: Conn, e: Event)
    ensures forall n :: n in PlainNotes(c, e) ==> n in {Up, Down, Closed, Message, Fin}
    ensures Fin in PlainNotes(c, e) <==> Halts(c, e) && !c.Writing()
  {
  }

  // ----- What stays the same -----

  lemma StepFrame(c: Conn, e: Event)
    requires Enabled(c, e)
    ensures Apply(c, e).opts == c.opts && Apply(c, e).channel.fd == c.channel.fd
    ensures Apply(c, e).destroyed <==> c.destroyed || e.Destroy?
    ensures c.state != Connecting ==> Apply(c, e).state != Connecting
    ensures Apply(c, e).late <==> c.late || !Timely(c, e)
    ensures |c.accepted| <= |Apply(c, e).accepted|
    ensures c.notes <= Apply(c, e).notes
  {
    StepShape(c, e);
    StepReports(c, e);
    if Sends(c, e) {
      SendInLoopEffect(Taken(c, e), e.before, e.data, e.result);
    } else if e.Writable? {
      HandleWriteEffect(c, e.result);
    }
  }

  lemma {:induction false} SameOptions(cs: seq<Conn>, es: seq<Event>, i: nat)
    requires IsRun(cs, es) && i <= |es|
    ensures cs[i].opts == cs[0].opts
  {
    if i > 0 {
      assert StepAt(cs, es, i - 1);
      SameOptions(cs, es, i - 1);
      StepFrame(cs[i - 1], es[i - 1]);
    }
  }

  /** Some shutdown() has stored over a close. */
  ghost predicate Overtaken(cs: seq<Conn>, es: seq<Event>, i: nat)
    requires |cs| == |es| + 1 && i <= |es|
  {
    exists k :: 0 <= k < i && !Timely(cs[k], es[k])
  }

  lemma {:induction false} LateExactly(cs: seq<Conn>, es: seq<Event>, i: nat)
    requires IsRun(cs, es) && i <= |es|
    ensures cs[i].late <==> Overtaken(cs, es, i)
  {
    if i > 0 {
      assert StepAt(cs, es, i - 1);
      LateExactly(cs, es, i - 1);
      StepFrame(cs[i - 1], es[i - 1]);
    }
  }

  // ----- Pending bytes and write interest -----

  /** Bytes that wait without write interest. */
  predicate Stranded(c: Conn) {
    c.output != [] && !c.Writing()
  }

  /** Some shutdown() stored over a close that had left bytes behind, and nothing was accepted since. */
  ghost predicate LeftBehind(cs: seq<Conn>, es: seq<Event>, i: nat)
    requires |cs| == |es| + 1 && i <= |es|
  {
    exists k :: 0 <= k < i && !Timely(cs[k], es[k]) && cs[k].output != [] && |cs[k].accepted| == |cs[i].accepted|
  }

  lemma StrandedStays(c: Conn, e: Event)
    requires Enabled(c, e) && Stranded(c) && |Apply(c, e).accepted| == |c.accepted| && c.state != Connecting
    ensures Stranded(Apply(c, e))
  {
    StepShape(c, e);
    if Sends(c, e) {
      SendInLoopEffect(Taken(c, e), e.before, e.data, e.result);
    }
  }

  lemma StrandedComesFrom(c: Conn, e: Event, d: Conn)
    requires Inv(c) && Enabled(c, e) && Shaped(c, e, d) && d.Open() && Stranded(d)
    ensures |d.accepted| == |c.accepted| && c.output != []
    ensures c.state == Disconnected || (c.Open() && Stranded(c))
  {
    if Sends(c, e) {
      SendStrands(Taken(c, e), e.before, e.data, e.result);
    } else if e.Writable? {
      HandleWriteEffect(c, e.result);
    }
  }

  lemma SendStrands(c: Conn, before: Byte, data: seq<Byte>, r: WriteResult)
    requires Fits(r, |data|) && Accepts(c, r) && Stranded(SendInLoop(c, before, data, r))
    ensures data == [] && Stranded(c) && SendInLoop(c, before, data, r).state == c.state
  {
    SendInLoopEffect(c, before, data, r);
    assert Out in c.channel.events + WRITE_EVENT;
  }

  lemma {:induction false} LeftBehindIsStranded(cs: seq<Conn>, es: seq<Event>, k: nat, i: nat)
    requires IsRun(cs, es) && k < i <= |es| && !Timely(cs[k], es[k]) && cs[k].output != []
    requires |cs[k].accepted| == |cs[i].accepted|
    ensures Stranded(cs[i])
    decreases i
  {
    assert StepAt(cs, es, k);
    RunInv(cs, es, k);
    if k < i - 1 {
      assert StepAt(cs, es, i - 1);
      RunInv(cs, es, i - 1);
      StepFrame(cs[i - 1], es[i - 1]);
      AcceptedGrows(cs, es, k, i - 1);
      LeftBehindIsStranded(cs, es, k, i - 1);
      StrandedStays(cs[i - 1], es[i - 1]);
    }
  }

  lemma {:induction false} AcceptedGrows(cs: seq<Conn>, es: seq<Event>, k: nat, i: nat)
    requires IsRun(cs, es) && k <= i <= |es|
    ensures |cs[k].accepted| <= |cs[i].accepted|
    decreases i
  {
    if k < i {
      assert StepAt(cs, es, i - 1);
      AcceptedGrows(cs, es, k, i - 1);
      StepFrame(cs[i - 1], es[i - 1]);
    }
  }

  lemma {:induction false} StrandedWasLeftBehind(cs: seq<Conn>, es: seq<Event>, i: nat) returns (k: nat)
    requires IsRun(cs, es) && i <= |es| && cs[i].Open() && Stranded(cs[i])
    ensures k < i && !Timely(cs[k], es[k]) && cs[k].output != [] && |cs[k].accepted| == |cs[i].accepted|
  {
    assert StepAt(cs, es, i - 1);
    RunInv(cs, es, i - 1);
    StepShape(cs[i - 1], es[i - 1]);
    StrandedComesFrom(cs[i - 1], es[i - 1], cs[i]);
    if cs[i - 1].state == Disconnected {
      ClosedIsFinal(cs[i - 1], es[i - 1]);
    }
    if !Timely(cs[i - 1], es[i - 1]) {
      k := i - 1;
    } else {
      k := StrandedWasLeftBehind(cs, es, i - 1);
    }
  }

  /** On every run: pending bytes of a connection that is not closed lack write interest exactly when they were left behind. */
  lemma StrandedExactly(cs: seq<Conn>, es: seq<Event>, i: nat)
    requires IsRun(cs, es) && i <= |es| && cs[i].Open()
    ensures Stranded(cs[i]) <==> LeftBehind(cs, es, i)
  {
    if Stranded(cs[i]) {
      var k := StrandedWasLeftBehind(cs, es, i);
    }
    if LeftBehind(cs, es, i) {
      var k :| 0 <= k < i && !Timely(cs[k], es[k]) && cs[k].output != [] && |cs[k].accepted| == |cs[i].accepted|;
      LeftBehindIsStranded(cs, es, k, i);
    }
  }

  /**
   On every run: the pending bytes of a live connection have write interest on a registered channel, if
   and only if no late shutdown left them behind. As intended, nothing else has write interest.
  */
  lemma NeverStranded(cs: seq<Conn>, es: seq<Event>, i: nat)
    requires IsRun(cs, es) && i <= |es| && cs[i].Alive()
    ensures (cs[i].output != [] ==> cs[i].Writing() && cs[i].Registered()) <==> !LeftBehind(cs, es, i)
    ensures cs[0].opts.drain == Intended && cs[i].Writing() ==> cs[i].output != []
    ensures !Overtaken(cs, es, i) ==> cs[i].Registered() && (cs[0].opts.drain == Intended ==> cs[i].Reading())
  {
    RunInv(cs, es, i);
    SameOptions(cs, es, i);
    LateExactly(cs, es, i);
    StrandedExactly(cs, es, i);
  }

  // ----- Half-close -----

  /** The steps into the closed state. */
  predicate Shuts(c: Conn, e: Event) {
    Closes(c, e) || (e.Destroy? && c.state == Connected)
  }

  /** Some close came over pending bytes, and nothing was accepted since. */
  ghost predicate ShutOver(cs: seq<Conn>, es: seq<Event>, i: nat)
    requires |cs| == |es| + 1 && i <= |es|
  {
    exists k :: 0 <= k < i && Shuts(cs[k], es[k]) && cs[k].output != [] && |cs[k].accepted| == |cs[i].accepted|
  }

  lemma ShutsStep(c: Conn, e: Event, d: Conn)
    requires Inv(c) && Enabled(c, e) && Shaped(c, e, d)
    ensures Shuts(c, e) ==> d.state == Disconnected && d.output == c.output && !d.Writing() && d.accepted == c.accepted
    ensures d.state == Disconnected && !Shuts(c, e) ==>
              c.state == Disconnected && d.output == c.output && d.accepted == c.accepted
  {
    if Sends(c, e) {
      SendInLoopEffect(Taken(c, e), e.before, e.data, e.result);
    } else if e.Writable? {
      HandleWriteEffect(c, e.result);
    }
  }

  lemma {:induction false} StrandedSince(cs: seq<Conn>, es: seq<Event>, k: nat, i: nat)
    requires IsRun(cs, es) && k <= i <= |es| && Stranded(cs[k]) && cs[k].state != Connecting
    requires |cs[k].accepted| == |cs[i].accepted|
    ensures Stranded(cs[i]) && cs[i].state != Connecting
    decreases i
  {
    if k < i {
      assert StepAt(cs, es, i - 1);
      StepFrame(cs[i - 1], es[i - 1]);
      AcceptedGrows(cs, es, k, i - 1);
      StrandedSince(cs, es, k, i - 1);
      StrandedStays(cs[i - 1], es[i - 1]);
    }
  }

  lemma {:induction false} ShutOverSomething(cs: seq<Conn>, es: seq<Event>, i: nat) returns (k: nat)
    requires IsRun(cs, es) && i <= |es| && cs[i].state == Disconnected && cs[i].output != []
    ensures k < i && Shuts(cs[k], es[k]) && cs[k].output != [] && |cs[k].accepted| == |cs[i].accepted|
  {
    assert StepAt(cs, es, i - 1);
    RunInv(cs, es, i - 1);
    StepShape(cs[i - 1], es[i - 1]);
    ShutsStep(cs[i - 1], es[i - 1], Apply(cs[i - 1], es[i - 1]));
    if Shuts(cs[i - 1], es[i - 1]) {
      k := i - 1;
    } else {
      k := ShutOverSomething(cs, es, i - 1);
    }
  }

  /** On every run: a closed connection has bytes pending exactly when some close came over them. */
  lemma ShutOverExactly(cs: seq<Conn>, es: seq<Event>, i: nat)
    requires IsRun(cs, es) && i <= |es| && cs[i].state == Disconnected
    ensures cs[i].output != [] <==> ShutOver(cs, es, i)
  {
    if cs[i].output != [] {
      var k := ShutOverSomething(cs, es, i);
    }
    if ShutOver(cs, es, i) {
      var k :| 0 <= k < i && Shuts(cs[k], es[k]) && cs[k].output != [] && |cs[k].accepted| == |cs[i].accepted|;
      assert StepAt(cs, es, k);
      RunInv(cs, es, k);
      StepShape(cs[k], es[k]);
      ShutsStep(cs[k], es[k], Apply(cs[k], es[k]));
      StrandedSince(cs, es, k + 1, i);
    }
  }

  /**
   On every run, in whatever order sends, drains, shutdowns and the end of the connection came: when the
   sending side is shut down, every accepted byte is with the kernel if and only if none was left behind:
   by a late shutdown over a close, while the connection is not closed; by a close, when it is.
  */
  lemma HalfCloseSafety(cs: seq<Conn>, es: seq<Event>, i: nat)
    requires IsRun(cs, es) && i < |es|
    ensures cs[i].notes <= cs[i + 1].notes
    ensures Fin in NewNotes(cs[i], cs[i + 1]) ==>
              (cs[i + 1].output == [] <==>
               if cs[i].state == Disconnected then !ShutOver(cs, es, i) else !LeftBehind(cs, es, i))
    ensures |cs[i + 1].wire| + |cs[i + 1].output| == |cs[i + 1].accepted|
    ensures (forall k :: 0 <= k <= i ==> Harmless(cs[k], es[k])) && cs[i + 1].output == [] ==>
              cs[i + 1].wire == cs[i + 1].accepted
  {
    var c, d := cs[i], cs[i + 1];
    assert StepAt(cs, es, i);
    RunInv(cs, es, i);
    StepReports(c, es[i]);
    StreamConservation(cs, es, i + 1);
    assert d.output == [] ==> d.Stream() == d.wire;
    if Fin in NewNotes(c, d) {
      FinLeaves(c, es[i]);
      if c.state == Disconnected {
        ShutOverExactly(cs, es, i);
      } else {
        StrandedExactly(cs, es, i);
      }
    }
  }

  /** A shutdown leaves the output alone and needs write interest to be off; a drain needs it on, and empties the output. */
  lemma FinLeaves(c: Conn, e: Event)
    requires Inv(c) && Enabled(c, e) && IssuesFin(c, e)
    ensures c.state == Disconnected || c.Open()
    ensures if Halts(c, e) then Apply(c, e).output == c.output && !c.Writing()
            else Apply(c, e).output == [] && c.Writing() && c.state == Disconnecting
  {
    OutputStep(c, e);
  }

  lemma OneMore(cs: seq<Conn>, es: seq<Event>, e: Event) returns (more: seq<Conn>, events: seq<Event>)
    requires IsRun(cs, es) && Enabled(cs[|es|], e)
    ensures more == cs + [Apply(cs[|es|], e)] && events == es + [e]
    ensures IsRun(more, events)
  {
    more, events := cs + [Apply(cs[|es|], e)], es + [e];
    forall i | 0 <= i < |events|
      ensures StepAt(more, events, i)
    {
      if i < |es| {
        assert StepAt(cs, es, i);
      }
    }
  }

  lemma Begin(fd: int, opts: Options) returns (cs: seq<Conn>, es: seq<Event>)
    ensures IsRun(cs, es) && es == [Establish] && cs == [Fresh(fd, opts), ConnectEstablished(Fresh(fd, opts))]
  {
    cs, es := OneMore([Fresh(fd, opts)], [], Establish);
  }

  /** Two bytes sent, one of them taken by the kernel. */
  lemma SentOneOfTwo(fd: int, opts: Options) returns (cs: seq<Conn>, es: seq<Event>)
    ensures es == [Establish, Send(0, [1, 2], Wrote(1))] && IsRun(cs, es)
    ensures cs[2].state == Connected && cs[2].Registered() && !cs[2].destroyed && Fin !in cs[2].notes
    ensures cs[2].output == [2] && cs[2].wire == [1]
  {
    cs, es := Begin(fd, opts);
    var c := cs[1];
    assert In in c.channel.events && Out !in c.channel.events;
    SendInLoopEffect(c, 0, [1, 2], Wrote(1));
    UnsentIsSuffix(0, [1, 2], 1);
    SendReports(c, 0, [1, 2], Wrote(1));
    cs, es := OneMore(cs, es, Send(0, [1, 2], Wrote(1)));
    assert cs[2].notes == c.notes + NewNotes(c, cs[2]);
    assert Out in c.channel.events + WRITE_EVENT;
  }

  /** The four steps of the race in shutdown() and of the functor it queues. */
  lemma HaltedLate(cs: seq<Conn>, es: seq<Event>) returns (more: seq<Conn>, events: seq<Event>)
    requires IsRun(cs, es) && cs[|es|].state == Connected && cs[|es|].Registered() && !cs[|es|].destroyed
    ensures events == es + [BeginShutdown, HangUp, EndShutdown, RunShutdown] && IsRun(more, events)
    ensures var c := cs[|es|];
            && more[|es| + 3].notes == c.notes + [Down] + [Closed] && more[|es| + 4].notes == c.notes + [Down] + [Closed] + [Fin]
            && more[|es| + 4] == c.(state := Disconnecting, channel := more[|es| + 4].channel, halting := c.halting,
                                    late := true, notes := more[|es| + 4].notes)
            && !more[|es| + 4].Writing()
  {
    more, events := OneMore(cs, es, BeginShutdown);
    more, events := OneMore(more, events, HangUp);
    more, events := OneMore(more, events, EndShutdown);
    more, events := OneMore(more, events, RunShutdown);
  }

  /** The race in shutdown() with a byte left behind: the FIN goes out ahead of it. */
  lemma LateFinOvertakes(fd: int, opts: Options) returns (cs: seq<Conn>, es: seq<Event>)
    ensures es == [Establish, Send(0, [1, 2], Wrote(1)), BeginShutdown, HangUp, EndShutdown, RunShutdown] && IsRun(cs, es)
    ensures Fin !in cs[5].notes && Fin in cs[6].notes
    ensures cs[6].Alive() && cs[6].output == [2] && !cs[6].Writing() && cs[6].wire == [1]
  {
    cs, es := SentOneOfTwo(fd, opts);
    cs, es := HaltedLate(cs, es);
  }

  /** As intended, a connection that was shut down has sent its FIN as soon as nothing is pending, on every run. */
  lemma HalfCloseLiveness(cs: seq<Conn>, es: seq<Event>, i: nat)
    requires IsRun(cs, es) && i <= |es| && cs[0].opts.drain == Intended
    requires cs[i].state == Disconnecting && cs[i].halting == 0 && cs[i].output == []
    ensures Fin in cs[i].notes
  {
    RunInv(cs, es, i);
    SameOptions(cs, es, i);
  }

  // ----- Notifications -----

  /**
   On every run: a write-complete callback is queued only at a moment when the kernel has all that was
   accepted, and one is queued whenever a send or a write event brings that moment about.
  */
  lemma WriteCompleteTruth(cs: seq<Conn>, es: seq<Event>, i: nat)
    requires IsRun(cs, es) && i < |es|
    ensures var c, d := cs[i], cs[i + 1];
            && c.notes <= d.notes
            && (WriteComplete in NewNotes(c, d) ==> d.output == [] && |d.wire| == |d.accepted| && d.state != Disconnected)
            && (c.opts.wantsWriteComplete && c.output != [] && d.output == [] ==> WriteComplete in NewNotes(c, d))
            && (c.opts.wantsWriteComplete && |c.accepted| < |d.accepted| && d.output == [] ==> WriteComplete in NewNotes(c, d))
            && (WriteComplete in NewNotes(c, d) && (forall k :: 0 <= k <= i ==> Harmless(cs[k], es[k])) ==>
                  d.wire == d.accepted)
  {
    var c, d := cs[i], cs[i + 1];
    assert StepAt(cs, es, i);
    RunInv(cs, es, i);
    StreamConservation(cs, es, i + 1);
    StepReports(c, es[i]);
    OutputStep(c, es[i]);
    assert |d.Stream()| == |d.wire| + |d.output|;
    assert d.output == [] ==> d.Stream() == d.wire;
    StepShape(c, es[i]);
    CompletionLeavesNothing(c, es[i], Apply(c, es[i]));
  }

  lemma CompletionLeavesNothing(c: Conn, e: Event, d: Conn)
    requires Inv(c) && Enabled(c, e) && Shaped(c, e, d)
    ensures CompletesNow(c, e) || DrainsNow(c, e) ==> d.output == [] && d.state != Disconnected
    ensures |c.accepted| < |d.accepted| && d.output == [] ==> CompletesNow(c, e)
  {
    if Sends(c, e) {
      SendInLoopEffect(Taken(c, e), e.before, e.data, e.result);
    } else if e.Writable? {
      HandleWriteEffect(c, e.result);
    }
  }

  ghost predicate TellsHighWater(c: Conn, d: Conn) {
    c.notes <= d.notes && exists n :: HighWater(n) in NewNotes(c, d)
  }

  /** One is queued exactly at the upward crossings of the mark, and says how much is then pending. */
  lemma HighWaterMarksCrossings(cs: seq<Conn>, es: seq<Event>, i: nat)
    requires IsRun(cs, es) && i < |es|
    ensures var c, d := cs[i], cs[i + 1];
            && c.notes <= d.notes
            && (TellsHighWater(c, d) <==> c.opts.wantsHighWater && Crosses(c, d))
            && (forall n :: HighWater(n) in NewNotes(c, d) ==> n == |d.output|)
  {
    StepReportsAt(cs, es, i);
    CrossingsAreTold(cs[i], cs[i + 1], DrainsNow(cs[i], es[i]) || CompletesNow(cs[i], es[i]), IssuesFin(cs[i], es[i]));
  }

  lemma StepReportsAt(cs: seq<Conn>, es: seq<Event>, i: nat)
    requires IsRun(cs, es) && i < |es|
    ensures Enabled(cs[i], es[i])
    ensures ReportsExactly(cs[i], cs[i + 1], DrainsNow(cs[i], es[i]) || CompletesNow(cs[i], es[i]), IssuesFin(cs[i], es[i]))
  {
    assert StepAt(cs, es, i);
    StepReports(cs[i], es[i]);
  }

  lemma CrossingsAreTold(c: Conn, d: Conn, complete: bool, fin: bool)
    requires ReportsExactly(c, d, complete, fin)
    ensures TellsHighWater(c, d) <==> c.opts.wantsHighWater && Crosses(c, d)
    ensures forall n :: HighWater(n) in NewNotes(c, d) ==> n == |d.output|
  {
    if c.opts.wantsHighWater && Crosses(c, d) {
      assert HighWater(|d.output|) in NewNotes(c, d);
    }
  }

  /** Between any two of them some write event took the pending length below the mark again. */
  lemma {:induction false} HighWaterAlternates(cs: seq<Conn>, es: seq<Event>, i: nat, j: nat) returns (k: nat)
    requires IsRun(cs, es) && i < j < |es|
    requires TellsHighWater(cs[i], cs[i + 1]) && TellsHighWater(cs[j], cs[j + 1])
    ensures i < k < j && es[k].Writable? && |cs[k + 1].output| < cs[0].opts.mark <= |cs[k].output|
  {
    HighWaterMarksCrossings(cs, es, i);
    HighWaterMarksCrossings(cs, es, j);
    SameOptions(cs, es, i);
    SameOptions(cs, es, j);
    k := i + 1;
    while cs[0].opts.mark <= |cs[k + 1].output|
      invariant i < k < j && cs[0].opts.mark <= |cs[k].output|
      decreases j - k
    {
      k := k + 1;
    }
    assert StepAt(cs, es, k);
    OutputStep(cs[k], es[k]);
  }

  // ----- Closing -----

  /**
   A closed connection stays closed, and takes and sends no byte; the one step that can bring it back is
   another thread's shutdown() whose check came before the close. It makes no callback either, unless its
   channel is registered, which only a late shutdown or a send after connectDestroyed can have brought about.
  */
  lemma ClosedIsFinal(c: Conn, e: Event)
    requires Inv(c) && c.state == Disconnected && Enabled(c, e)
    ensures var d := Apply(c, e);
            && (d.state != Disconnected <==> !Timely(c, e))
            && d.wire == c.wire && d.output == c.output && d.accepted == c.accepted
            && (!c.Registered() ==> d.notes == c.notes || d.notes == c.notes + [Fin])
    ensures c.Registered() ==> c.late || c.destroyed
  {
    StepShape(c, e);
  }

  lemma DownStep(c: Conn, e: Event)
    requires Enabled(c, e)
    ensures Count(Apply(c, e).notes, Down)
            == Count(c.notes, Down) + if Closes(c, e) || (e.Destroy? && c.state == Connected) then 1 else 0
    ensures Count(Apply(c, e).notes, Closed) == Count(c.notes, Closed) + if Closes(c, e) then 1 else 0
  {
    StepShape(c, e);
    if Closes(c, e) {
      assert Apply(c, e).notes == c.notes + [Down] + [Closed];
      ClosedCounts(c.notes, Down);
      ClosedCounts(c.notes, Closed);
    } else if Sends(c, e) {
      SendDownStep(Taken(c, e), e.before, e.data, e.result);
    } else if e.Writable? {
      WriteDownStep(c, e.result);
    } else {
      PlainDownStep(c, e);
    }
  }

  lemma SendDownStep(c: Conn, before: Byte, data: seq<Byte>, r: WriteResult)
    requires Fits(r, |data|) && Accepts(c, r)
    ensures Count(SendInLoop(c, before, data, r).notes, Down) == Count(c.notes, Down)
    ensures Count(SendInLoop(c, before, data, r).notes, Closed) == Count(c.notes, Closed)
  {
    SendInLoopEffect(c, before, data, r);
    var d := SendInLoop(c, before, data, r);
    var more := d.notes[|c.notes|..];
    assert d.notes == c.notes + more;
    CountsAdd(c.notes, more, Down);
    CountsAdd(c.notes, more, Closed);
  }

  lemma WriteDownStep(c: Conn, r: WriteResult)
    requires Fits(r, |c.output|)
    ensures Count(HandleWrite(c, r).notes, Down) == Count(c.notes, Down)
    ensures Count(HandleWrite(c, r).notes, Closed) == Count(c.notes, Closed)
  {
    HandleWriteEffect(c, r);
    if Progresses(c, r) {
      var more := If(Drains(c, r) && c.opts.wantsWriteComplete, WriteComplete)
                  + If(Drains(c, r) && c.state == Disconnecting && c.opts.drain == Intended, Fin);
      CountsAdd(c.notes, more, Down);
      CountsAdd(c.notes, more, Closed);
    }
  }

  lemma PlainDownStep(c: Conn, e: Event)
    requires Enabled(c, e) && !Closes(c, e) && !Sends(c, e) && !e.Writable?
    ensures Count(Apply(c, e).notes, Down) == Count(c.notes, Down) + if e.Destroy? && c.state == Connected then 1 else 0
    ensures Count(Apply(c, e).notes, Closed) == Count(c.notes, Closed)
  {
    var added := Apply(c, e).notes;
    PlainStep(c, e);
    NotedCount(c.notes, Up, Down);
    CountsSum(c.notes, PlainNotes(c, e), Down);
    CountsSum(c.notes, PlainNotes(c, e), Closed);
  }

  lemma CountsSum(notes: seq<Note>, more: seq<Note>, n: Note)
    ensures Count(notes + more, n) == Count(notes, n) + Count(more, n)
  {
  }

  /** Some close came after a late shutdown, or in the closed state. */
  ghost predicate ClosedAgain(cs: seq<Conn>, es: seq<Event>, i: nat)
    requires |cs| == |es| + 1 && i <= |es|
  {
    exists m :: 0 <= m < i && ClosesAgain(cs, es, m)
  }

  ghost predicate ClosesAgain(cs: seq<Conn>, es: seq<Event>, m: nat)
    requires |cs| == |es| + 1 && m < |es|
  {
    Closes(cs[m], es[m]) && (cs[m].state == Disconnected || Overtaken(cs, es, m))
  }

  lemma DownAgain(c: Conn, e: Event)
    requires Inv(c) && Enabled(c, e)
    ensures Count(Apply(c, e).notes, Down) <= 1 <==> Count(c.notes, Down) <= 1 && !(Closes(c, e) && (c.state == Disconnected || c.late))
  {
    DownStep(c, e);
    if Closes(c, e) {
      CloserIsAlive(c, e);
    }
  }

  lemma {:induction false} DownOnceExactly(cs: seq<Conn>, es: seq<Event>, i: nat)
    requires IsRun(cs, es) && i <= |es|
    ensures Count(cs[i].notes, Down) <= 1 <==> !ClosedAgain(cs, es, i)
  {
    if i > 0 {
      assert StepAt(cs, es, i - 1);
      DownOnceExactly(cs, es, i - 1);
      RunInv(cs, es, i - 1);
      DownAgain(cs[i - 1], es[i - 1]);
      LateExactly(cs, es, i - 1);
      ClosedAgainStep(cs, es, i);
    }
  }

  lemma ClosedAgainStep(cs: seq<Conn>, es: seq<Event>, i: nat)
    requires |cs| == |es| + 1 && 0 < i <= |es|
    ensures ClosedAgain(cs, es, i) <==> ClosedAgain(cs, es, i - 1) || ClosesAgain(cs, es, i - 1)
  {
  }

  /**
   On every run: the up callback once, and first; a down callback when it has closed, and a second one if
   and only if it closed once more, after a late shutdown or while its channel was still registered.
  */
  lemma CallbackDiscipline(cs: seq<Conn>, es: seq<Event>, i: nat)
    requires IsRun(cs, es) && i <= |es|
    ensures cs[i].state != Connecting ==> Count(cs[i].notes, Up) == 1 && cs[i].notes != [] && cs[i].notes[0] == Up
    ensures Count(cs[i].notes, Down) >= 1 <==> cs[i].state == Disconnected || Overtaken(cs, es, i)
    ensures Count(cs[i].notes, Down) <= 1 <==> !ClosedAgain(cs, es, i)
  {
    RunInv(cs, es, i);
    LateExactly(cs, es, i);
    DownOnceExactly(cs, es, i);
  }

  lemma {:induction false} ClosedForGood(cs: seq<Conn>, es: seq<Event>, i: nat, j: nat)
    requires IsRun(cs, es) && i <= j <= |es| && cs[i].state == Disconnected
    ensures (forall m :: i <= m <= j ==> cs[m].state == Disconnected) <==> (forall m :: i <= m < j ==> Timely(cs[m], es[m]))
    ensures (forall m :: i <= m < j ==> Timely(cs[m], es[m])) ==>
              cs[j].wire == cs[i].wire && cs[j].output == cs[i].output && cs[j].accepted == cs[i].accepted
    decreases j
  {
    if i < j {
      assert StepAt(cs, es, j - 1);
      ClosedForGood(cs, es, i, j - 1);
      RunInv(cs, es, j - 1);
      if cs[j - 1].state == Disconnected {
        ClosedIsFinal(cs[j - 1], es[j - 1]);
      }
      assert (forall m :: i <= m <= j ==> cs[m].state == Disconnected)
             <==> (forall m :: i <= m <= j - 1 ==> cs[m].state == Disconnected) && cs[j].state == Disconnected;
      assert (forall m :: i <= m < j ==> Timely(cs[m], es[m]))
             <==> (forall m :: i <= m < j - 1 ==> Timely(cs[m], es[m])) && Timely(cs[j - 1], es[j - 1]);
    }
  }

  /** The race in shutdown(): the check, a hang-up, then the store; a closed connection is half open again. */
  lemma LateShutdownReopens(fd: int, opts: Options) returns (cs: seq<Conn>, es: seq<Event>)
    ensures es == [Establish, BeginShutdown, HangUp, EndShutdown] && IsRun(cs, es)
    ensures cs[3].state == Disconnected && cs[3].notes == [Up, Down, Closed]
    ensures cs[4] == cs[3].(state := Disconnecting, stopping := 0, halting := 1, late := true)
    ensures cs[4].output == [] && !cs[4].destroyed && cs[4].channel.events == NONE_EVENT
  {
    cs, es := Begin(fd, opts);
    cs, es := OneMore(cs, es, BeginShutdown);
    assert In in cs[2].channel.events;
    cs, es := OneMore(cs, es, HangUp);
    cs, es := OneMore(cs, es, EndShutdown);
  }

  /** The race the other way: the store comes between check and store of connectDestroyed, and only its functor is left. */
  lemma ShutdownIsLost(fd: int, opts: Options) returns (cs: seq<Conn>, es: seq<Event>)
    ensures es == [Establish, BeginShutdown, Destroy, LoseShutdown, RunShutdown] && IsRun(cs, es)
    ensures cs[4].state == Disconnected && !cs[4].late && cs[4].halting == 1
    ensures cs[5].state == Disconnected && cs[5].notes == [Up, Down, Fin]
  {
    cs, es := Begin(fd, opts);
    cs, es := OneMore(cs, es, BeginShutdown);
    assert In in cs[2].channel.events;
    cs, es := OneMore(cs, es, Destroy);
    assert cs[3].notes == [Up, Down];
    cs, es := OneMore(cs, es, LoseShutdown);
    cs, es := OneMore(cs, es, RunShutdown);
  }

  /** ... and when a send that was queued before then finds the peer gone, the application is told Down a second time. */
  lemma SecondDown(fd: int, opts: Options) returns (cs: seq<Conn>, es: seq<Event>)
    ensures es == [Establish, BeginSend([1]), EndSend([1]), BeginShutdown, HangUp, EndShutdown, RunSend(0, [1], Faulted)]
    ensures IsRun(cs, es) && cs[7].notes == [Up, Down, Closed, Down, Closed] && cs[7].state == Disconnected
  {
    cs, es := QueuedThenReopened(fd, opts);
    cs, es := OneMore(cs, es, RunSend(0, [1], Faulted));
  }

  lemma QueuedThenReopened(fd: int, opts: Options) returns (cs: seq<Conn>, es: seq<Event>)
    ensures es == [Establish, BeginSend([1]), EndSend([1]), BeginShutdown, HangUp, EndShutdown] && IsRun(cs, es)
    ensures var c := cs[6];
            && c.state == Disconnecting && c.sends == [[1]] && c.output == [] && c.channel.events == NONE_EVENT
            && c.notes == [Up, Down, Closed]
  {
    cs, es := Begin(fd, opts);
    assert In in cs[1].channel.events;
    cs, es := OneMore(cs, es, BeginSend([1]));
    cs, es := OneMore(cs, es, EndSend([1]));
    cs, es := OneMore(cs, es, BeginShutdown);
    cs, es := OneMore(cs, es, HangUp);
    cs, es := OneMore(cs, es, EndShutdown);
  }

  /** Why stale events must not be dispatched: a second hang-up would be reported as a second Down. */
  lemma StaleHangUpRepeats(c: Conn)
    requires Inv(c) && c.state == Disconnected
    ensures Count(HandleClose(c).notes, Down) == Count(c.notes, Down) + 1 >= 2
  {
    assert HandleClose(c).notes == c.notes + [Down] + [Closed];
    ClosedCounts(c.notes, Down);
  }

  // ----- What a step leaves behind in the loop's queue -----

  /** A write-complete or high-water callback is queued, with a reference to the connection. */
  ghost predicate QueuesCallback(c: Conn, e: Event)
    requires Enabled(c, e)
  {
    || (c.opts.wantsWriteComplete && (DrainsNow(c, e) || CompletesNow(c, e)))
    || (c.opts.wantsHighWater && Crosses(c, Apply(c, e)))
  }

  lemma QueuesExactly(c: Conn, e: Event)
    requires Enabled(c, e)
    ensures c.notes <= Apply(c, e).notes
    ensures QueuesCallback(c, e) <==> exists n :: n in NewNotes(c, Apply(c, e)) && (n.WriteComplete? || n.HighWater?)
  {
    StepReports(c, e);
    if QueuesCallback(c, e) {
      var n := if c.opts.wantsHighWater && Crosses(c, Apply(c, e)) then HighWater(|Apply(c, e).output|) else WriteComplete;
      assert n in NewNotes(c, Apply(c, e));
    }
  }

  // ----- Whether a connection can still close -----

  /** Some send that another thread has passed its check with would, on a closed connection reopened, fail or be buffered. */
  ghost predicate ClosingSend(c: Conn) {
    exists d :: (d in c.sends || d in c.sending) && (d != [] || c.output == [])
  }

  /**
   Its channel is registered, or it is not up yet; or it is, or can be, reopened without write interest,
   while a send is under way that would fail or register the channel again; or the channel was removed
   in the middle of a dispatch, whose write event, if it is still due, can drain the output and so register
   the channel again.
  */
  ghost predicate MayClose(c: Conn, due: bool) {
    || c.Registered() || c.state == Connecting
    || ((c.state == Disconnecting || c.stopping > 0) && !c.Writing() && ClosingSend(c))
    || (due && c.Writing() && c.output != [])
  }

  /** What the loop can do of a connection in the middle of a dispatch whose write event is due, and otherwise. */
  predicate InTurn(c: Conn, e: Event, due: bool) {
    if due then !e.RunSend? && !e.RunShutdown? && !e.HangUp? else e.Writable? ==> c.Registered()
  }

  /** Otherwise no step closes it, now or later. */
  lemma ShutForGood(c: Conn, e: Event, due: bool)
    requires Inv(c) && Enabled(c, e) && InTurn(c, e, due) && !MayClose(c, due)
    ensures !Closes(c, e) && !MayClose(Apply(c, e), due && !e.Writable?)
  {
    StepShape(c, e);
    match e
    case RunSend(before, data, r) => ShutSend(c, before, data, r);
    case EndSend(data) => assert Apply(c, e).output == c.output;
    case Writable(r) => HandleWriteEffect(c, r);
    case _ =>
  }

  lemma ShutSend(c: Conn, before: Byte, data: seq<Byte>, r: WriteResult)
    requires Inv(c) && Enabled(c, RunSend(before, data, r)) && !MayClose(c, false)
    ensures !Closes(c, RunSend(before, data, r)) && !MayClose(Apply(c, RunSend(before, data, r)), false)
  {
    var e := RunSend(before, data, r);
    var b := Taken(c, e);
    StepShape(c, e);
    assert forall d :: d in b.sends ==> d in c.sends;
    if c.state == Disconnecting {
      assert data in c.sends;
      SendInLoopEffect(b, before, data, r);
    }
  }

  /** A step towards the next close. */
  ghost function NextToClose(c: Conn, due: bool): (e: Event)
    requires MayClose(c, due) && (due ==> c.state != Connecting)
    ensures Enabled(c, e) && InTurn(c, e, due) && !e.Destroy? && !e.BeginSend? && !e.BeginShutdown?
  {
    if due then Writable(if !c.Registered() && c.Writing() && c.output != [] then Wrote(|c.output|) else Stalled)
    else if c.Registered() then HangUp
    else if c.state == Connecting then Establish
    else if c.state != Disconnecting then EndShutdown
    else if c.sends != [] then RunSend(0, c.sends[0], if c.output == [] then Faulted else Stalled)
    else
      var d :| d in c.sending && (d != [] || c.output == []);
      EndSend(d)
  }

  function StepsToClose(c: Conn, due: bool): nat {
    (if due then 1 else 0)
    + if c.Registered() then 0
      else if c.state == Connecting then 1
      else 1 + |c.sends| + 2 * |c.sending| + if c.state == Disconnecting then 0 else 1
  }

  lemma CloserByOne(c: Conn, due: bool)
    requires Inv(c) && MayClose(c, due) && (due ==> c.state != Connecting)
    ensures var e := NextToClose(c, due);
            var d := Apply(c, e);
            Closes(c, e) || (MayClose(d, due && !e.Writable?) && StepsToClose(d, due && !e.Writable?) < StepsToClose(c, due))
  {
    if due {
      DueIsCloser(c);
    } else if !c.Registered() {
      if c.state == Connecting {
        assert In in c.channel.events + READ_EVENT;
      } else if c.state == Disconnecting {
        if c.sends != [] { SendIsCloser(c); } else { QueueingIsCloser(c); }
      } else {
        assert c.state == Disconnected;
      }
    }
  }

  /** The write event that is due drains the output of a removed channel, or does nothing. */
  lemma DueIsCloser(c: Conn)
    requires Inv(c) && MayClose(c, true) && c.state != Connecting
    ensures var e := NextToClose(c, true);
            var d := Apply(c, e);
            e.Writable? && MayClose(d, false) && StepsToClose(d, false) < StepsToClose(c, true)
  {
    HandleWriteEffect(c, NextToClose(c, true).result);
  }

  lemma SendIsCloser(c: Conn)
    requires Inv(c) && MayClose(c, false) && c.state == Disconnecting && !c.Registered() && c.sends != []
    ensures var d := Apply(c, NextToClose(c, false));
            Closes(c, NextToClose(c, false)) || (MayClose(d, false) && StepsToClose(d, false) < StepsToClose(c, false))
  {
    var data := c.sends[0];
    var e := RunSend(0, data, if c.output == [] then Faulted else Stalled);
    if c.output != [] {
      SendInLoopEffect(Taken(c, e), 0, data, Stalled);
      assert Out in c.channel.events + WRITE_EVENT;
      if data == [] {
        var d :| (d in c.sends || d in c.sending) && d != [];
        assert d in c.sends ==> d in c.sends[1..];
      }
    }
  }

  lemma QueueingIsCloser(c: Conn)
    requires Inv(c) && MayClose(c, false) && c.state == Disconnecting && !c.Registered() && c.sends == []
    ensures var d := Apply(c, NextToClose(c, false));
            MayClose(d, false) && StepsToClose(d, false) < StepsToClose(c, false)
  {
    var e := NextToClose(c, false);
    assert e.data in Apply(c, e).sends;
    assert |c.sending - multiset{e.data}| == |c.sending| - 1;
  }

  // ----- ... while only the batch of its loop holds it -----

  /** Some other thread is inside send() or shutdown(), past its check. */
  predicate Inside(c: Conn) {
    c.sending != multiset{} || c.stopping > 0
  }

  lemma InsideStep(c: Conn, e: Event)
    requires Enabled(c, e)
    ensures Inside(Apply(c, e)) ==> Inside(c) || e.BeginSend? || e.BeginShutdown?
  {
    StepShape(c, e);
    if Sends(c, e) {
      SendInLoopEffect(Taken(c, e), e.before, e.data, e.result);
    } else if e.Writable? {
      HandleWriteEffect(c, e.result);
    }
  }

  function Total(sends: seq<seq<Byte>>): nat {
    if sends == [] then 0 else |sends[0]| + Total(sends[1..])
  }

  lemma {:induction false} TotalIsPositive(sends: seq<seq<Byte>>) returns (data: seq<Byte>)
    requires Total(sends) > 0
    ensures data in sends && data != []
  {
    if sends[0] != [] {
      data := sends[0];
    } else {
      data := TotalIsPositive(sends[1..]);
    }
  }

  /** The next queued send writes at once, and its write may fail. */
  predicate MayFail(c: Conn) {
    c.state == Disconnecting && !c.Writing() && c.output == [] && c.sends != []
  }

  /**
   The queued sends take the pending length to the high-water mark, so that the callback queued then holds
   the connection beyond the batch, with its channel registered.
  */
  predicate MayOverflow(c: Conn) {
    && c.state == Disconnecting && (c.Registered() || !c.Writing())
    && c.opts.wantsHighWater && |c.output| < c.opts.mark <= |c.output| + Total(c.sends)
  }

  lemma FailingCloses(c: Conn)
    requires MayFail(c) || MayOverflow(c)
    ensures MayClose(c, false)
  {
    if MayFail(c) {
      assert c.sends[0] in c.sends;
    } else if !c.Registered() {
      var data := TotalIsPositive(c.sends);
    }
  }

  /** Otherwise, after connectDestroyed and while its loop does not poll, no step closes it or makes that possible. */
  lemma ShutUntilPolled(c: Conn, e: Event)
    requires Inv(c) && Enabled(c, e) && c.destroyed && !MayFail(c) && !MayOverflow(c) && !Inside(c)
    requires !e.Readable? && !e.Writable? && !e.HangUp?
    ensures !Closes(c, e) && !MayFail(Apply(c, e)) && !MayOverflow(Apply(c, e))
    ensures QueuesCallback(c, e) ==> !MayClose(Apply(c, e), false)
  {
    if e.RunSend? && c.state == Disconnecting {
      UnpolledSend(c, e);
    } else {
      UnpolledRest(c, e);
    }
  }

  lemma UnpolledRest(c: Conn, e: Event)
    requires Inv(c) && Enabled(c, e) && c.destroyed && !MayFail(c) && !MayOverflow(c) && !Inside(c)
    requires !e.Readable? && !e.Writable? && !e.HangUp? && (e.RunSend? ==> c.state != Disconnecting)
    ensures !Closes(c, e) && !MayFail(Apply(c, e)) && !MayOverflow(Apply(c, e)) && !QueuesCallback(c, e)
  {
    StepShape(c, e);
  }

  lemma UnpolledSend(c: Conn, e: Event)
    requires Inv(c) && Enabled(c, e) && e.RunSend? && c.state == Disconnecting && !MayFail(c) && !MayOverflow(c) && !Inside(c)
    ensures !Closes(c, e) && !MayFail(Apply(c, e)) && !MayOverflow(Apply(c, e))
    ensures QueuesCallback(c, e) ==> !MayClose(Apply(c, e), false)
  {
    StepShape(c, e);
    SendInLoopEffect(Taken(c, e), e.before, e.data, e.result);
    assert Out in c.channel.events + WRITE_EVENT;
    assert Total(c.sends) == |e.data| + Total(c.sends[1..]);
  }

  /** A queued send buffered: it takes the pending length to the mark, or leaves the next ones to. */
  lemma OverflowsByOne(c: Conn)
    requires Inv(c) && MayOverflow(c) && !MayFail(c) && (c.Writing() || c.output != [])
    ensures c.sends != []
    ensures var e := RunSend(0, c.sends[0], Stalled);
            && Enabled(c, e) && !Closes(c, e)
            && var d := Apply(c, e);
               && |d.sends| < |c.sends|
               && (if QueuesCallback(c, e) then MayClose(d, false) else MayOverflow(d))
  {
    var e := RunSend(0, c.sends[0], Stalled);
    StepShape(c, e);
    SendInLoopEffect(Taken(c, e), 0, e.data, Stalled);
    assert Out in c.channel.events + WRITE_EVENT;
    assert Total(c.sends) == |e.data| + Total(c.sends[1..]);
  }

  // ----- After connectDestroyed -----

  /**
   What calls the channel after connectDestroyed: a queued send whose write fails, or that something of has
   to wait; and a write event, of the dispatch that connectDestroyed came in the middle of, that drains.
  */
  predicate Revives(c: Conn, e: Event)
    requires Enabled(c, e)
  {
    c.destroyed && (SendRevives(c, e) || DrainsNow(c, e))
  }

  predicate SendRevives(c: Conn, e: Event)
    requires Enabled(c, e)
  {
    && e.RunSend? && c.state == Disconnecting && !c.Writing()
    && ((WritesDirectly(c) && e.result.Faulted?) || (Written(c, e.data, e.result) != |e.data| && e.data != []))
  }

  /** Exactly these put the channel that connectDestroyed had removed back into the poller, until it runs again. */
  lemma RevivedStep(c: Conn, e: Event, d: Conn)
    requires Inv(c) && Enabled(c, e) && Shaped(c, e, d) && d.destroyed
    ensures d.channel.index != New <==> !e.Destroy? && c.destroyed && (c.channel.index != New || Revives(c, e))
  {
    match e
    case RunSend(_, _, _) => RevivedBySend(c, e, d);
    case Writable(r) => HandleWriteEffect(c, r);
    case _ => RevivedByNothing(c, e, d);
  }

  lemma RevivedBySend(c: Conn, e: Event, d: Conn)
    requires Inv(c) && Enabled(c, e) && Shaped(c, e, d) && d.destroyed && e.RunSend?
    ensures d.channel.index != New <==> c.destroyed && (c.channel.index != New || SendRevives(c, e))
  {
    if Closes(c, e) {
      assert d.channel == Changed(c.channel, NONE_EVENT);
    } else if Sends(c, e) {
      SendIndex(Taken(c, e), e.before, e.data, e.result);
    }
  }

  lemma SendIndex(c: Conn, before: Byte, data: seq<Byte>, r: WriteResult)
    requires Fits(r, |data|) && Accepts(c, r)
    ensures var d := SendInLoop(c, before, data, r);
            && d.destroyed == c.destroyed
            && (d.channel.index != New <==> c.channel.index != New || (!c.Writing() && Written(c, data, r) != |data| && data != []))
  {
    SendInLoopEffect(c, before, data, r);
  }

  lemma RevivedByNothing(c: Conn, e: Event, d: Conn)
    requires Inv(c) && Enabled(c, e) && Shaped(c, e, d) && d.destroyed && !e.RunSend? && !e.Writable?
    ensures d.channel.index != New <==> !e.Destroy? && c.destroyed && c.channel.index != New
  {
  }

  /** Some send or drain put the channel back after connectDestroyed, which has not run again since. */
  ghost predicate RevivedSince(cs: seq<Conn>, es: seq<Event>, i: nat)
    requires IsRun(cs, es) && i <= |es|
  {
    exists k :: 0 <= k < i && RevivedAt(cs, es, k, i)
  }

  ghost predicate RevivedAt(cs: seq<Conn>, es: seq<Event>, k: nat, i: nat)
    requires IsRun(cs, es) && k < i <= |es|
  {
    && Enabled(cs[k], es[k]) && Revives(cs[k], es[k])
    && forall m :: k < m < i ==> !es[m].Destroy?
  }

  /** On every run: a destroyed connection's channel is out of the poller, but exactly for that. */
  lemma {:induction false} RevivedExactly(cs: seq<Conn>, es: seq<Event>, i: nat)
    requires IsRun(cs, es) && i <= |es| && cs[i].destroyed
    ensures cs[i].channel.index != New <==> RevivedSince(cs, es, i)
  {
    if i > 0 {
      var c, e := cs[i - 1], es[i - 1];
      assert StepAt(cs, es, i - 1);
      RunInv(cs, es, i - 1);
      StepShape(c, e);
      RevivedStep(c, e, Apply(c, e));
      if c.destroyed {
        RevivedExactly(cs, es, i - 1);
      } else {
        NotRevived(cs, es, i - 1);
      }
      RevivedSinceStep(cs, es, i);
    }
  }

  lemma RevivedSinceStep(cs: seq<Conn>, es: seq<Event>, i: nat)
    requires IsRun(cs, es) && 0 < i <= |es| && Enabled(cs[i - 1], es[i - 1])
    ensures RevivedSince(cs, es, i)
            <==> !es[i - 1].Destroy? && (RevivedSince(cs, es, i - 1) || Revives(cs[i - 1], es[i - 1]))
  {
    if RevivedSince(cs, es, i) {
      var k :| 0 <= k < i && RevivedAt(cs, es, k, i);
      assert k < i - 1 ==> RevivedAt(cs, es, k, i - 1);
    }
    if !es[i - 1].Destroy? && RevivedSince(cs, es, i - 1) {
      var k :| 0 <= k < i - 1 && RevivedAt(cs, es, k, i - 1);
      assert RevivedAt(cs, es, k, i);
    }
    if Revives(cs[i - 1], es[i - 1]) {
      assert RevivedAt(cs, es, i - 1, i);
    }
  }

  lemma {:induction false} NotRevived(cs: seq<Conn>, es: seq<Event>, i: nat)
    requires IsRun(cs, es) && i <= |es| && !cs[i].destroyed
    ensures !RevivedSince(cs, es, i)
  {
    if i > 0 {
      assert StepAt(cs, es, i - 1);
      StepFrame(cs[i - 1], es[i - 1]);
      NotRevived(cs, es, i - 1);
      RevivedSinceStep(cs, es, i);
    }
  }

  // ----- Sends from other threads -----

  /** The data of the queued sends that have run, in order. */
  function Served(es: seq<Event>): seq<seq<Byte>> {
    if es == [] then []
    else
      var e := es[|es| - 1];
      Served(es[..|es| - 1]) + if e.RunSend? then [e.data] else []
  }

  /** The data of the sends that were accepted, whoever made them, in order. */
  ghost function AcceptedIn(cs: seq<Conn>, es: seq<Event>, i: nat): seq<Byte>
    requires |cs| == |es| + 1 && i <= |es|
  {
    if i == 0 then [] else AcceptedIn(cs, es, i - 1) + if Sends(cs[i - 1], es[i - 1]) then es[i - 1].data else []
  }

  /**
   On every run: what other threads handed over has run or is still queued, in the order it was handed
   over; each that ran was accepted in its turn, or dropped, and dropped if and only if the connection was
   closed or that send itself closed it; and what was accepted is the data of the accepted sends in order.
  */
  lemma {:induction false} SendsInOrder(cs: seq<Conn>, es: seq<Event>, i: nat)
    requires IsRun(cs, es) && i <= |es|
    ensures cs[i].handed == Served(es[..i]) + cs[i].sends
    ensures cs[i].accepted == AcceptedIn(cs, es, i)
    ensures forall k :: 0 <= k < i && es[k].RunSend? ==>
              (Sends(cs[k], es[k]) <==> cs[k].state != Disconnected && !Closes(cs[k], es[k]))
  {
    if i > 0 {
      var c, e := cs[i - 1], es[i - 1];
      assert StepAt(cs, es, i - 1);
      SendsInOrder(cs, es, i - 1);
      ServedStep(es, i);
      QueueStep(c, e);
      AcceptedStep(c, e);
      HandOver(cs[i - 1].handed, Served(es[..i - 1]), c.sends, cs[i].handed, Served(es[..i]), cs[i].sends,
               if e.EndSend? then [e.data] else [], if e.RunSend? then [e.data] else []);
    } else {
      assert es[..0] == [];
    }
  }

  lemma HandOver<T>(handed: seq<T>, served: seq<T>, sends: seq<T>, handed': seq<T>, served': seq<T>, sends': seq<T>,
                    added: seq<T>, taken: seq<T>)
    requires handed == served + sends && handed' == handed + added && served' == served + taken
    requires sends + added == taken + sends'
    ensures handed' == served' + sends'
  {
    assert handed' == served + (sends + added);
    assert served' + sends' == served + (taken + sends');
  }

  lemma ServedStep(es: seq<Event>, i: nat)
    requires 0 < i <= |es|
    ensures Served(es[..i]) == Served(es[..i - 1]) + if es[i - 1].RunSend? then [es[i - 1].data] else []
  {
    assert es[..i][..i - 1] == es[..i - 1];
  }

  lemma QueueStep(c: Conn, e: Event)
    requires Enabled(c, e)
    ensures var d := Apply(c, e);
            && d.handed == c.handed + (if e.EndSend? then [e.data] else [])
            && c.sends + (if e.EndSend? then [e.data] else []) == (if e.RunSend? then [e.data] else []) + d.sends
  {
    QueueFrame(c, e);
    if e.RunSend? {
      assert c.sends == [c.sends[0]] + c.sends[1..];
    }
  }

  lemma QueueFrame(c: Conn, e: Event)
    requires Enabled(c, e)
    ensures var d := Apply(c, e);
            if e.EndSend? then d.handed == c.handed + [e.data] && d.sends == c.sends + [e.data]
            else d.handed == c.handed && d.sends == Taken(c, e).sends
  {
    StepShape(c, e);
    if Sends(c, e) {
      SendInLoopEffect(Taken(c, e), e.before, e.data, e.result);
    } else if e.Writable? {
      HandleWriteEffect(c, e.result);
    }
  }

  lemma AcceptedStep(c: Conn, e: Event)
    requires Enabled(c, e)
    ensures Apply(c, e).accepted == c.accepted + if Sends(c, e) then e.data else []
  {
    StepShape(c, e);
    if Sends(c, e) {
      SendInLoopEffect(Taken(c, e), e.before, e.data, e.result);
    } else if e.Writable? {
      HandleWriteEffect(c, e.result);
    }
  }

  // ----- The drain, as written -----

  /** Some bytes had to wait in the output buffer, and no close came since. */
  ghost predicate KeptSince(cs: seq<Conn>, i: nat)
    requires i < |cs|
  {
    exists k :: 0 <= k < i && KeptAt(cs, k, i)
  }

  ghost predicate KeptAt(cs: seq<Conn>, k: nat, i: nat)
    requires k < i < |cs|
  {
    Keeps(cs[k], cs[k + 1]) && OpenSince(cs, k + 1, i)
  }

  ghost predicate OpenSince(cs: seq<Conn>, k: nat, i: nat)
    requires i < |cs|
  {
    forall m :: k <= m <= i ==> cs[m].state != Disconnected
  }

  predicate Keeps(c: Conn, d: Conn) {
    |c.output| < |d.output|
  }

  lemma WritingStep(c: Conn, e: Event, d: Conn)
    requires Inv(c) && Enabled(c, e) && Shaped(c, e, d) && c.opts.drain == AsWritten
    ensures d.Writing() <==> d.state != Disconnected && (c.Writing() || Keeps(c, d))
  {
    if Sends(c, e) {
      SendWritingStep(Taken(c, e), e.before, e.data, e.result);
    } else if e.Writable? {
      HandleWriteEffect(c, e.result);
    }
  }

  lemma SendWritingStep(c: Conn, before: Byte, data: seq<Byte>, r: WriteResult)
    requires Fits(r, |data|) && Accepts(c, r)
    ensures var d := SendInLoop(c, before, data, r);
            && d.state == c.state && (d.Writing() <==> c.Writing() || Keeps(c, d))
            && (d.Reading() <==> c.Reading()) && (c.output != [] ==> d.output != [])
  {
    SendInLoopEffect(c, before, data, r);
    assert Out in c.channel.events + WRITE_EVENT;
  }

  lemma ReadingStep(c: Conn, e: Event, d: Conn)
    requires Inv(c) && Enabled(c, e) && Shaped(c, e, d) && c.opts.drain == AsWritten && c.state != Connecting
    ensures d.Reading() <==> d.state != Disconnected && c.Reading() && !(c.output != [] && d.output == [])
  {
    if Sends(c, e) {
      SendWritingStep(Taken(c, e), e.before, e.data, e.result);
    } else if e.Writable? {
      WriteReadingStep(c, e.result);
    }
  }

  lemma WriteReadingStep(c: Conn, r: WriteResult)
    requires Fits(r, |c.output|) && c.opts.drain == AsWritten
    ensures var d := HandleWrite(c, r);
            && d.state == c.state
            && (d.Reading() <==> c.Reading() && !(c.output != [] && d.output == []))
  {
    HandleWriteEffect(c, r);
  }

  /** As written, on every run: write interest is on from the first byte buffered until the connection closes. */
  lemma {:induction false} WriteInterestSticks(cs: seq<Conn>, es: seq<Event>, i: nat)
    requires IsRun(cs, es) && i <= |es| && cs[0].opts.drain == AsWritten
    ensures cs[i].Writing() <==> KeptSince(cs, i)
  {
    if i > 0 {
      assert StepAt(cs, es, i - 1);
      WriteInterestSticks(cs, es, i - 1);
      RunInv(cs, es, i - 1);
      SameOptions(cs, es, i - 1);
      StepShape(cs[i - 1], es[i - 1]);
      WritingStep(cs[i - 1], es[i - 1], Apply(cs[i - 1], es[i - 1]));
      KeptSinceStep(cs, i);
    }
  }

  lemma KeptSinceStep(cs: seq<Conn>, i: nat)
    requires 0 < i < |cs|
    ensures KeptSince(cs, i) <==> cs[i].state != Disconnected && (KeptSince(cs, i - 1) || Keeps(cs[i - 1], cs[i]))
  {
    assert KeptAt(cs, i - 1, i) <==> Keeps(cs[i - 1], cs[i]) && cs[i].state != Disconnected;
    if KeptSince(cs, i) {
      var k :| 0 <= k < i && KeptAt(cs, k, i);
      if k < i - 1 {
        OpenSinceStep(cs, k + 1, i);
        assert KeptAt(cs, k, i - 1);
      }
    }
    if KeptSince(cs, i - 1) && cs[i].state != Disconnected {
      var k :| 0 <= k < i - 1 && KeptAt(cs, k, i - 1);
      OpenSinceStep(cs, k + 1, i);
      assert KeptAt(cs, k, i);
    }
  }

  lemma OpenSinceStep(cs: seq<Conn>, k: nat, i: nat)
    requires k < i < |cs|
    ensures OpenSince(cs, k, i) <==> OpenSince(cs, k, i - 1) && cs[i].state != Disconnected
  {
  }

  predicate DrainedOnce(cs: seq<Conn>, i: nat)
    requires i < |cs|
  {
    exists k :: 0 <= k < i && cs[k].output != [] && cs[k + 1].output == []
  }

  /** As written, on every run: a connection reads from when it is up until its first drain or close, and never again. */
  lemma {:induction false} DeafAfterDrain(cs: seq<Conn>, es: seq<Event>, i: nat)
    requires IsRun(cs, es) && i <= |es| && cs[0].opts.drain == AsWritten
    ensures cs[i].Reading() <==> cs[i].state != Connecting && OpenSince(cs, 0, i) && !DrainedOnce(cs, i)
  {
    if i > 0 {
      DeafAfterDrain(cs, es, i - 1);
      ReadingAt(cs, es, i);
      DrainedOnceStep(cs, i);
      if cs[i - 1].state == Connecting {
        StillConnecting(cs, es, i - 1);
      }
    }
  }

  lemma ReadingAt(cs: seq<Conn>, es: seq<Event>, i: nat)
    requires IsRun(cs, es) && 0 < i <= |es| && cs[0].opts.drain == AsWritten
    ensures var c, d := cs[i - 1], cs[i];
            if c.state == Connecting then
              c.output == [] && d.output == [] && (if es[i - 1].Establish? then d.state == Connected && d.Reading() else d.state == Connecting && !d.Reading())
            else
              && d.state != Connecting
              && (d.Reading() <==> d.state != Disconnected && c.Reading() && !(c.output != [] && d.output == []))
  {
    assert StepAt(cs, es, i - 1);
    RunInv(cs, es, i - 1);
    SameOptions(cs, es, i - 1);
    StepFrame(cs[i - 1], es[i - 1]);
    if cs[i - 1].state == Connecting {
      ConnectingStep(cs[i - 1], es[i - 1]);
    } else {
      StepShape(cs[i - 1], es[i - 1]);
      ReadingStep(cs[i - 1], es[i - 1], Apply(cs[i - 1], es[i - 1]));
    }
  }

  lemma DrainedOnceStep(cs: seq<Conn>, i: nat)
    requires 0 < i < |cs|
    ensures DrainedOnce(cs, i) <==> DrainedOnce(cs, i - 1) || (cs[i - 1].output != [] && cs[i].output == [])
    ensures OpenSince(cs, 0, i) <==> OpenSince(cs, 0, i - 1) && cs[i].state != Disconnected
  {
  }

  lemma ConnectingStep(c: Conn, e: Event)
    requires Inv(c) && Enabled(c, e) && c.state == Connecting
    ensures var d := Apply(c, e);
            d.output == [] && if e.Establish? then d.state == Connected && d.Reading() else d.state == Connecting && !d.Reading()
  {
    assert In in c.channel.events + READ_EVENT;
  }

  lemma {:induction false} StillConnecting(cs: seq<Conn>, es: seq<Event>, i: nat)
    requires IsRun(cs, es) && i <= |es| && cs[i].state == Connecting
    ensures OpenSince(cs, 0, i) && !DrainedOnce(cs, i)
  {
    RunInv(cs, es, i);
    if i > 0 {
      assert StepAt(cs, es, i - 1);
      RunInv(cs, es, i - 1);
      StepFrame(cs[i - 1], es[i - 1]);
      StillConnecting(cs, es, i - 1);
    }
  }

  ghost predicate HaltedUnbuffered(cs: seq<Conn>, es: seq<Event>, i: nat)
    requires |cs| == |es| + 1 && i <= |es|
  {
    exists k :: 0 <= k < i && Halts(cs[k], es[k]) && !KeptSince(cs, k)
  }

  lemma FinStep(c: Conn, e: Event)
    requires Enabled(c, e) && c.opts.drain == AsWritten
    ensures Fin in Apply(c, e).notes <==> Fin in c.notes || (Halts(c, e) && !c.Writing())
  {
    StepReports(c, e);
    assert Apply(c, e).notes == c.notes + NewNotes(c, Apply(c, e));
  }

  /**
   As written, on every run: the sending side has been shut down if and only if some shutdown was carried
   out while no byte had had to wait in the output buffer since the last close: no drain makes up for it.
  */
  lemma {:induction false} FinOnlyIfNeverBuffered(cs: seq<Conn>, es: seq<Event>, i: nat)
    requires IsRun(cs, es) && i <= |es| && cs[0].opts.drain == AsWritten
    ensures Fin in cs[i].notes <==> HaltedUnbuffered(cs, es, i)
  {
    if i > 0 {
      assert StepAt(cs, es, i - 1);
      FinOnlyIfNeverBuffered(cs, es, i - 1);
      SameOptions(cs, es, i - 1);
      FinStep(cs[i - 1], es[i - 1]);
      WriteInterestSticks(cs, es, i - 1);
      assert HaltedUnbuffered(cs, es, i) <==>
             HaltedUnbuffered(cs, es, i - 1) || (Halts(cs[i - 1], es[i - 1]) && !KeptSince(cs, i - 1));
    }
  }
}
