/** What holds of a connection after every step of every run, and what exactly fails. */
module ConnectionTheorems {
  import opened Bytes
  import opened ChannelStates
  import opened Connections

  // ----- The invariant -----

  ghost predicate Untouched(c: Conn) {
    c == Fresh(c.channel.fd, c.opts).(input := c.input)
  }

  /** A channel with some interest is registered, unless connectDestroyed has removed it; a closed one has none. */
  ghost predicate ChannelInv(c: Conn) {
    && (!c.destroyed && c.channel.events != NONE_EVENT ==> c.Registered())
    && (c.state == Disconnected ==> c.channel.events == NONE_EVENT)
    && (c.destroyed || c.late ==> c.state == Disconnecting || c.state == Disconnected)
    && (c.opts.drain == Intended && c.Writing() ==> c.output != [])
  }

  /** As long as no late shutdown stored over a close: what keeps buffered bytes from being stranded. */
  ghost predicate InterestInv(c: Conn) {
    && (c.Alive() ==> c.Registered() && (c.output != [] ==> c.Writing()) && (c.opts.drain == Intended ==> c.Reading()))
    && (c.state == Disconnected && !c.destroyed ==> !c.Registered())
  }

  /** Up once and first; Down exactly when it is closed, or was before a late shutdown. */
  ghost predicate CallbackInv(c: Conn) {
    && Count(c.notes, Up) == (if c.state == Connecting then 0 else 1)
    && (c.state != Connecting ==> c.notes != [] && c.notes[0] == Up)
    && (Count(c.notes, Down) >= 1 <==> c.state == Disconnected || c.late)
    && (!c.destroyed && (c.state == Disconnected || c.late) ==> Count(c.notes, Closed) >= 1)
    && Count(c.notes, Closed) <= Count(c.notes, Down)
    && (!c.late && !c.destroyed ==> Count(c.notes, Down) <= 1)
  }

  ghost predicate HalfCloseInv(c: Conn) {
    c.opts.drain == Intended && c.state == Disconnecting && c.halting == 0 && c.output == [] ==> Fin in c.notes
  }

  /** What is queued is the rest of what was handed over. */
  ghost predicate QueueInv(c: Conn) {
    |c.sends| <= |c.handed| && c.sends == c.handed[|c.handed| - |c.sends|..]
  }

  ghost predicate Inv(c: Conn) {
    && (c.state == Connecting ==> Untouched(c))
    && |c.Stream()| == |c.accepted|
    && ChannelInv(c)
    && (!c.late ==> InterestInv(c))
    && CallbackInv(c)
    && HalfCloseInv(c)
    && QueueInv(c)
  }

  /** later only adds notes that are neither Up nor Down, Closed or Fin. */
  ghost predicate Quietly(earlier: seq<Note>, later: seq<Note>) {
    && earlier <= later
    && forall i :: |earlier| <= i < |later| ==> later[i] !in {Up, Down, Closed, Fin}
  }

  lemma NotedCount(notes: seq<Note>, added: Note, n: Note)
    ensures Count(notes + [added], n) == Count(notes, n) + if added == n then 1 else 0
  {
  }

  // ----- One step -----

  lemma KeepRestEffect(c: Conn, rest: seq<Byte>)
    ensures var d := KeepRest(c, rest);
            && d == c.(output := c.output + rest, channel := d.channel, notes := d.notes)
            && d.channel == (if rest == [] || c.Writing() then c.channel
                             else Changed(c.channel, c.channel.events + WRITE_EVENT))
            && Quietly(c.notes, d.notes)
  {
    if rest == [] {
      assert c.output + rest == c.output;
    }
  }

  lemma UnsentIsSuffix(before: Byte, data: seq<Byte>, n: nat)
    requires n <= |data|
    ensures Unsent(before, data, n) == data[n..]
  {
  }

  predicate Accepts(c: Conn, r: WriteResult) {
    c.state != Disconnected && !(WritesDirectly(c) && r.Faulted?)
  }

  /** The bytes that an accepting sendInLoop adds to the stream. */
  function Kept(c: Conn, before: Byte, data: seq<Byte>, r: WriteResult): (kept: seq<Byte>)
    requires Fits(r, |data|)
    ensures |kept| == |data|
  {
    if WritesDirectly(c) && !r.Wrote? then Unsent(before, data, -1) else data
  }

  /** Moving a front part of the data to the wire ahead of an empty buffer does not change the stream. */
  lemma Regroup<T>(wire: seq<T>, output: seq<T>, front: seq<T>, rest: seq<T>)
    requires front == [] || output == []
    ensures (wire + front) + (output + rest) == wire + output + (front + rest)
  {
  }

  lemma AfterWriteEffect(c: Conn, before: Byte, data: seq<Byte>, r: WriteResult)
    requires Fits(r, |data|) && Accepts(c, r)
    ensures var a := AfterWrite(c, data, r);
            && a == c.(wire := a.wire, accepted := c.accepted + data, notes := a.notes)
            && Quietly(c.notes, a.notes)
            && a.wire + (c.output + Unsent(before, data, Written(c, data, r)))
               == c.wire + c.output + Kept(c, before, data, r)
  {
    var n := Written(c, data, r);
    AfterWriteFrame(c, data, r);
    WrittenIs(c, data, r);
    Regroup(c.wire, c.output, data[..if n < 0 then 0 else n], Unsent(before, data, n));
    FrontAndRest(before, data, n);
  }

  lemma AfterWriteFrame(c: Conn, data: seq<Byte>, r: WriteResult)
    requires Fits(r, |data|)
    ensures var a, n := AfterWrite(c, data, r), Written(c, data, r);
            && a == c.(wire := c.wire + data[..if n < 0 then 0 else n], accepted := c.accepted + data, notes := a.notes)
            && Quietly(c.notes, a.notes)
  {
  }

  /** The count of a direct write is what the kernel answered; without one it is 0. */
  lemma WrittenIs(c: Conn, data: seq<Byte>, r: WriteResult)
    requires Fits(r, |data|)
    ensures c.state == Disconnected || c.Writing() || c.output != [] ==> Written(c, data, r) == 0
    ensures !(c.state == Disconnected || c.Writing() || c.output != []) ==> Written(c, data, r) == if r.Wrote? then r.n else -1
  {
  }

  /** What was written and what is buffered make up the data, or the bytes from one place before it. */
  lemma FrontAndRest(before: Byte, data: seq<Byte>, n: int)
    requires -1 <= n <= |data|
    ensures data[..if n < 0 then 0 else n] + Unsent(before, data, n) == if n < 0 then Unsent(before, data, -1) else data
  {
    if n >= 0 {
      UnsentIsSuffix(before, data, n);
    }
  }

  /** What sendInLoop does when it neither refuses the data nor finds the peer gone. */
  lemma SendInLoopEffect(c: Conn, before: Byte, data: seq<Byte>, r: WriteResult)
    requires Fits(r, |data|) && Accepts(c, r)
    ensures var d := SendInLoop(c, before, data, r);
            && d == c.(output := d.output, wire := d.wire, accepted := c.accepted + data,
                       channel := d.channel, notes := d.notes)
            && d.Stream() == c.Stream() + Kept(c, before, data, r)
            && d.channel.fd == c.channel.fd
            && Quietly(c.notes, d.notes)
            && d.output == c.output + Unsent(before, data, Written(c, data, r))
            && (d.output == c.output ==> d.channel == c.channel)
            && (d.output != c.output ==>
                  d.output != [] && d.channel == if c.Writing() then c.channel else Changed(c.channel, c.channel.events + WRITE_EVENT))
  {
    AfterWriteEffect(c, before, data, r);
    KeepRestEffect(AfterWrite(c, data, r), Unsent(before, data, Written(c, data, r)));
  }

  predicate Progresses(c: Conn, r: WriteResult) {
    c.Writing() && r.Wrote? && r.n > 0
  }

  predicate Drains(c: Conn, r: WriteResult) {
    Progresses(c, r) && r.n == |c.output|
  }

  function If(condition: bool, n: Note): seq<Note> {
    if condition then [n] else []
  }

  /** The channel after a change of interest. */
  function Changed(c: ChannelState, events: Mask): ChannelState {
    var d := c.(events := events);
    d.(index := UpdatedIndex(d))
  }

  function DrainedMask(c: Conn): Mask {
    if c.opts.drain == AsWritten then c.channel.events - READ_EVENT else c.channel.events - WRITE_EVENT
  }

  /** The notes after a drain: perhaps a write-complete, and then a Fin when a shutdown was waiting. */
  lemma DrainedEffect(c: Conn)
    requires c.Writing()
    ensures var d := Drained(c);
            && d == c.(channel := Changed(c.channel, DrainedMask(c)), notes := d.notes)
            && d.notes == c.notes + (If(c.opts.wantsWriteComplete, WriteComplete)
                                     + If(c.state == Disconnecting && c.opts.drain == Intended, Fin))
  {
    var quiet := c.WithInterest(DrainedMask(c));
    assert quiet.Writing() <==> c.opts.drain == AsWritten;
  }

  /** What a write event does: a front part of the buffer to the wire, and a drain's doings with the last of it. */
  lemma HandleWriteEffect(c: Conn, r: WriteResult)
    requires Fits(r, |c.output|)
    ensures var d := HandleWrite(c, r);
            && d.Stream() == c.Stream()
            && (!Progresses(c, r) ==> d == c)
            && (Progresses(c, r) ==>
                  && d == c.(wire := c.wire + c.output[..r.n], output := c.output[r.n..], channel := d.channel, notes := d.notes)
                  && d.channel == (if Drains(c, r) then Changed(c.channel, DrainedMask(c)) else c.channel)
                  && d.notes == c.notes + (If(Drains(c, r) && c.opts.wantsWriteComplete, WriteComplete)
                                           + If(Drains(c, r) && c.state == Disconnecting && c.opts.drain == Intended, Fin)))
  {
    if Progresses(c, r) {
      var sent := c.(wire := c.wire + c.output[..r.n], output := c.output[r.n..]);
      assert c.output == c.output[..r.n] + c.output[r.n..];
      assert sent.Stream() == c.Stream();
      if Drains(c, r) {
        DrainedEffect(sent);
      }
    }
  }

  /** The send a step performs, if it performs one that is accepted. */
  predicate Sends(c: Conn, e: Event) {
    match e
    case Send(_, _, r) => c.state == Connected && Accepts(c, r)
    case RunSend(_, _, r) => Accepts(c, r)
    case _ => false
  }

  /** d is c after something that leaves stream and channel alone. */
  ghost predicate Aside(c: Conn, d: Conn) {
    && d == c.(state := d.state, sending := d.sending, sends := d.sends, handed := d.handed, stopping := d.stopping,
               halting := d.halting, late := d.late, input := d.input, notes := d.notes)
    && (d.state == c.state || d.state == Disconnecting)
  }

  /** Every step closes, sends, writes, establishes or destroys, or leaves stream and channel alone. */
  ghost predicate Shaped(c: Conn, e: Event, d: Conn)
    requires Enabled(c, e)
  {
    if Closes(c, e) then d == HandleClose(Taken(c, e)) && !Sends(c, e)
    else if Sends(c, e) then Accepts(c, e.result) && d == SendInLoop(Taken(c, e), e.before, e.data, e.result)
    else
      match e
      case Establish => d == ConnectEstablished(c)
      case Destroy => d == ConnectDestroyed(c)
      case Writable(r) => d == HandleWrite(c, r)
      case _ => Aside(c, d)
  }

  lemma StepShape(c: Conn, e: Event)
    requires Enabled(c, e)
    ensures Shaped(c, e, Apply(c, e))
  {
    match e
    case Writable(r) => HandleWriteEffect(c, r);
    case _ =>
  }

  // ----- Every step keeps the invariant -----

  lemma CountsAdd(notes: seq<Note>, more: seq<Note>, n: Note)
    requires n !in more
    ensures Count(notes + more, n) == Count(notes, n)
  {
    assert multiset(notes + more) == multiset(notes) + multiset(more);
  }

  /** The callback part survives notes that are no callbacks, without a change of state. */
  lemma CallbacksKept(c: Conn, d: Conn, more: seq<Note>)
    requires CallbackInv(c) && d.state == c.state && d.late == c.late && d.destroyed == c.destroyed
    requires d.notes == c.notes + more && forall n :: n in more ==> n !in {Up, Down, Closed}
    ensures CallbackInv(d)
  {
    CountsAdd(c.notes, more, Up);
    CountsAdd(c.notes, more, Down);
    CountsAdd(c.notes, more, Closed);
  }

  lemma ClosedCounts(notes: seq<Note>, n: Note)
    ensures Count(notes + [Down] + [Closed], n) == Count(notes, n) + if n == Down || n == Closed then 1 else 0
  {
    NotedCount(notes, Down, n);
    NotedCount(notes + [Down], Closed, n);
  }

  lemma HandleCloseInv(c: Conn)
    requires Inv(c) && c.state != Connecting && (c.late || c.destroyed || c.Alive())
    ensures Inv(HandleClose(c))
  {
    var d := HandleClose(c);
    assert d.notes == c.notes + [Down] + [Closed];
    ClosedCounts(c.notes, Up);
    ClosedCounts(c.notes, Down);
    ClosedCounts(c.notes, Closed);
  }

  lemma SendInLoopInv(c: Conn, before: Byte, data: seq<Byte>, r: WriteResult)
    requires Inv(c) && c.state != Connecting && Fits(r, |data|) && Accepts(c, r)
    ensures Inv(SendInLoop(c, before, data, r))
  {
    var d := SendInLoop(c, before, data, r);
    SendInLoopEffect(c, before, data, r);
    assert |d.Stream()| == |c.Stream()| + |data|;
    SentInv(c, d);
  }

  /** An accepted send lengthens the stream, and turns on write interest if it leaves something behind. */
  lemma SentInv(c: Conn, d: Conn)
    requires Inv(c) && c.state != Connecting && c.state != Disconnected
    requires d == c.(output := d.output, wire := d.wire, accepted := d.accepted, channel := d.channel, notes := d.notes)
    requires |d.Stream()| - |c.Stream()| == |d.accepted| - |c.accepted| && Quietly(c.notes, d.notes)
    requires d.output == c.output ==> d.channel == c.channel
    requires d.output != c.output ==>
               d.output != [] && d.channel == if c.Writing() then c.channel else Changed(c.channel, c.channel.events + WRITE_EVENT)
    ensures Inv(d)
  {
    assert d.notes == c.notes + d.notes[|c.notes|..];
    CallbacksKept(c, d, d.notes[|c.notes|..]);
    assert Out in c.channel.events + WRITE_EVENT;
  }

  lemma DrainedMaskFacts(c: Conn)
    requires c.Writing()
    ensures var m := DrainedMask(c);
            && (Out in m <==> c.opts.drain == AsWritten)
            && (c.opts.drain == Intended && c.Reading() ==> m != NONE_EVENT && (In in m || Pri in m))
            && (c.opts.drain == AsWritten ==> m != NONE_EVENT)
  {
    var m := DrainedMask(c);
    assert c.opts.drain == Intended && c.Reading() ==> In in m || Pri in m;
  }

  lemma HandleWriteInv(c: Conn, r: WriteResult)
    requires Inv(c) && c.state != Connecting && Fits(r, |c.output|)
    ensures Inv(HandleWrite(c, r))
  {
    HandleWriteEffect(c, r);
    if Drains(c, r) {
      DrainInv(c, r);
    } else if Progresses(c, r) {
      assert HandleWrite(c, r).notes == c.notes;
    }
  }

  lemma DrainInv(c: Conn, r: WriteResult)
    requires Inv(c) && c.state != Connecting && Fits(r, |c.output|) && Drains(c, r)
    ensures Inv(HandleWrite(c, r))
  {
    HandleWriteEffect(c, r);
    var d := HandleWrite(c, r);
    CallbacksKept(c, d, If(c.opts.wantsWriteComplete, WriteComplete)
                        + If(c.state == Disconnecting && c.opts.drain == Intended, Fin));
    DrainedMaskFacts(c);
  }

  lemma ConnectDestroyedInv(c: Conn)
    requires Inv(c) && c.state != Connecting
    ensures Inv(ConnectDestroyed(c))
  {
    NotedCount(c.notes, Down, Up);
    NotedCount(c.notes, Down, Down);
    NotedCount(c.notes, Down, Closed);
  }

  lemma ConnectEstablishedInv(c: Conn)
    requires Inv(c) && c.state == Connecting
    ensures Inv(ConnectEstablished(c))
  {
    var d := ConnectEstablished(c);
    assert d.notes == [Up];
    assert In in d.channel.events;
  }

  lemma ShutdownInLoopInv(c: Conn, d: Conn)
    requires Inv(c) && c.state != Connecting
    requires d == c.(halting := d.halting, state := d.state)
    requires d.state == c.state || (c.state == Connected && d.state == Disconnecting)
    ensures Inv(ShutdownInLoop(d))
  {
    if !d.Writing() {
      var e := d.Noted(Fin);
      assert e.notes == c.notes + [Fin];
      FinCounts(c.notes);
    }
  }

  lemma FinCounts(notes: seq<Note>)
    ensures forall n :: n in {Up, Down, Closed} ==> Count(notes + [Fin], n) == Count(notes, n)
  {
    NotedCount(notes, Fin, Up);
    NotedCount(notes, Fin, Down);
    NotedCount(notes, Fin, Closed);
  }

  /** The store of a shutdown from another thread, late or not. */
  lemma EndShutdownInv(c: Conn)
    requires Inv(c) && Enabled(c, EndShutdown)
    ensures Inv(Apply(c, EndShutdown))
  {
  }

  lemma LoseShutdownInv(c: Conn)
    requires Inv(c) && Enabled(c, LoseShutdown)
    ensures Inv(Apply(c, LoseShutdown))
  {
  }

  lemma MessageInv(c: Conn, bytes: seq<Byte>)
    requires Inv(c) && Enabled(c, Readable(ReadBytes(bytes))) && bytes != []
    ensures Inv(HandleRead(c, ReadBytes(bytes)))
  {
    CallbacksKept(c, HandleRead(c, ReadBytes(bytes)), [Message]);
  }

  lemma PlainInv(c: Conn, e: Event)
    requires Inv(c) && Enabled(c, e) && !Closes(c, e) && !Sends(c, e)
    requires !e.Writable? && !e.Establish? && !e.Destroy?
    ensures Inv(Apply(c, e))
  {
    match e
    case ShutdownHere => ShutdownHereInv(c);
    case RunShutdown => RunShutdownInv(c);
    case EndShutdown => EndShutdownInv(c);
    case LoseShutdown => LoseShutdownInv(c);
    case Readable(r) => if r.ReadBytes? { MessageInv(c, r.bytes); }
    case RunSend(_, _, _) => DroppedInv(c, e);
    case Send(_, _, _) => assert Apply(c, e) == c;
    case _ => AsideInv(c, e);
  }

  lemma ShutdownHereInv(c: Conn)
    requires Inv(c)
    ensures Inv(Shutdown(c))
  {
    if c.state == Connected {
      ShutdownInLoopInv(c, c.(state := Disconnecting));
    }
  }

  lemma RunShutdownInv(c: Conn)
    requires Inv(c) && Enabled(c, RunShutdown)
    ensures Inv(Apply(c, RunShutdown))
  {
    ShutdownInLoopInv(c, Taken(c, RunShutdown));
  }

  lemma DroppedInv(c: Conn, e: Event)
    requires Inv(c) && Enabled(c, e) && e.RunSend? && c.state == Disconnected
    ensures Inv(Apply(c, e))
  {
    SameInv(c, Taken(c, e));
  }

  lemma AsideInv(c: Conn, e: Event)
    requires Inv(c) && Enabled(c, e) && (e.BeginShutdown? || e.BeginSend? || e.EndSend? || e.Consume?)
    ensures Inv(Apply(c, e))
  {
    match e
    case BeginShutdown => BeginShutdownInv(c);
    case BeginSend(data) => BeginSendInv(c, data);
    case EndSend(data) => EndSendInv(c, data);
    case Consume(len) => ConsumeInv(c, len);
  }

  lemma BeginShutdownInv(c: Conn)
    requires Inv(c) && Enabled(c, BeginShutdown)
    ensures Inv(Apply(c, BeginShutdown))
  {
    SameInv(c, Apply(c, BeginShutdown));
  }

  lemma BeginSendInv(c: Conn, data: seq<Byte>)
    requires Inv(c) && Enabled(c, BeginSend(data))
    ensures Inv(Apply(c, BeginSend(data)))
  {
    SameInv(c, Apply(c, BeginSend(data)));
  }

  lemma ConsumeInv(c: Conn, len: nat)
    requires Inv(c)
    ensures Inv(Apply(c, Consume(len)))
  {
    SameInv(c, Apply(c, Consume(len)));
  }

  lemma EndSendInv(c: Conn, data: seq<Byte>)
    requires Inv(c) && Enabled(c, EndSend(data))
    ensures Inv(Apply(c, EndSend(data)))
  {
    SameInv(c, Apply(c, EndSend(data)));
  }

  /** What other threads are about, and what is queued or read, is nobody else's business. */
  lemma SameInv(c: Conn, d: Conn)
    requires Inv(c) && QueueInv(d)
    requires d == c.(input := d.input, sending := d.sending, sends := d.sends, handed := d.handed, stopping := d.stopping)
    requires c.state == Connecting ==> d == c.(input := d.input)
    ensures Inv(d)
  {
  }

  /** A closed connection closes again only after a late shutdown or after connectDestroyed. */
  lemma CloserIsAlive(c: Conn, e: Event)
    requires Inv(c) && Enabled(c, e) && Closes(c, e)
    ensures c.state != Connecting && (c.late || c.destroyed || c.Alive())
  {
  }

  lemma TakenInv(c: Conn, e: Event)
    requires Inv(c) && Enabled(c, e) && !e.RunShutdown?
    ensures Inv(Taken(c, e))
  {
    if e.RunSend? {
      SameInv(c, Taken(c, e));
    }
  }

  lemma ApplyInv(c: Conn, e: Event)
    requires Inv(c) && Enabled(c, e)
    ensures Inv(Apply(c, e))
  {
    StepShape(c, e);
    if Closes(c, e) {
      CloserIsAlive(c, e);
      TakenInv(c, e);
      HandleCloseInv(Taken(c, e));
    } else if Sends(c, e) {
      TakenInv(c, e);
      SendInLoopInv(Taken(c, e), e.before, e.data, e.result);
    } else {
      match e
      case Establish => ConnectEstablishedInv(c);
      case Writable(r) => HandleWriteInv(c, r);
      case Destroy => ConnectDestroyedInv(c);
      case _ => PlainInv(c, e);
    }
  }

  /** On every run, races and all. */
  lemma {:induction false} RunInv(cs: seq<Conn>, es: seq<Event>, i: nat)
    requires IsRun(cs, es) && i <= |es|
    ensures Inv(cs[i])
  {
    if i > 0 {
      assert StepAt(cs, es, i - 1);
      RunInv(cs, es, i - 1);
      ApplyInv(cs[i - 1], es[i - 1]);
    }
  }
}
