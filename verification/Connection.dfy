/**
 One connection of TcpConnection.cpp as a state machine over values: its state, the interest and index
 of its channel, the bytes still to be sent, and what the kernel and the application have seen of it.
*/
module Connections {
  import opened Bytes
  import opened ChannelStates

  datatype State = Disconnected | Connecting | Connected | Disconnecting

  /**
   What handleWrite switches off once the output is drained: reading, as the code has it, or writing,
   as everything around it expects.
  */
  datatype Drain = AsWritten | Intended

  datatype Options = Options(mark: nat, wantsHighWater: bool, wantsWriteComplete: bool, drain: Drain)

  /** Callbacks made (Up, Down, Closed, Message) or queued (the next two), and shutdownWrite calls (Fin). */
  datatype Note = Up | Down | Closed | Message | WriteComplete | HighWater(pending: nat) | Fin

  datatype Conn = Conn(
    opts: Options,
    state: State,
    channel: ChannelState,
    output: seq<Byte>,       // outputBuffer_
    input: seq<Byte>,        // inputBuffer_
    wire: seq<Byte>,         // every byte the kernel took, in order
    accepted: seq<Byte>,     // every byte sendInLoop took responsibility for, in order
    sending: multiset<seq<Byte>>,   // other threads inside send(), past its check of the state, with their data
    sends: seq<seq<Byte>>,   // sendInLoop calls still queued, in order
    handed: seq<seq<Byte>>,  // history: every sendInLoop ever queued, in order
    stopping: nat,           // other threads inside shutdown(), past its check of the state
    halting: nat,            // shutdownInLoop calls still queued
    destroyed: bool,         // connectDestroyed has run
    late: bool,              // history: some shutdown() stored kDisconnecting over kDisconnected
    notes: seq<Note>
  ) {
    predicate Writing() {
      Out in channel.events
    }

    predicate Reading() {
      In in channel.events || Pri in channel.events
    }

    predicate Registered() {
      channel.index == Added
    }

    /** Neither connecting nor closed. */
    predicate Open() {
      state == Connected || state == Disconnecting
    }

    /** Between connectEstablished and whatever closes or destroys the connection. */
    predicate Alive() {
      !destroyed && Open()
    }

    /** Bytes taken by the kernel, then bytes still buffered. */
    function Stream(): seq<Byte> {
      wire + output
    }

    function Noted(n: Note): Conn {
      this.(notes := notes + [n])
    }

    function WithInterest(events: Mask): Conn {
      var c := channel.(events := events);
      this.(channel := c.(index := UpdatedIndex(c)))
    }
  }

  /** A write never takes more than it was offered. */
  predicate Fits(r: WriteResult, len: nat) {
    r.Wrote? ==> r.n <= len
  }

  function Fresh(fd: int, opts: Options): Conn {
    Conn(opts, Connecting, ChannelState(fd, NONE_EVENT, New), [], [], [], [], multiset{}, [], [], 0, 0, false, false, [])
  }

  function ConnectEstablished(c: Conn): Conn {
    c.(state := Connected).WithInterest(c.channel.events + READ_EVENT).Noted(Up)
  }

  function HandleClose(c: Conn): Conn {
    c.(state := Disconnected).WithInterest(NONE_EVENT).Noted(Down).Noted(Closed)
  }

  function ConnectDestroyed(c: Conn): Conn {
    var d := if c.state == Connected then c.(state := Disconnected).WithInterest(NONE_EVENT).Noted(Down) else c;
    d.(channel := d.channel.(index := New), destroyed := true)
  }

  function ShutdownInLoop(c: Conn): Conn {
    if c.Writing() then c else c.Noted(Fin)
  }

  function Shutdown(c: Conn): Conn {
    if c.state == Connected then ShutdownInLoop(c.(state := Disconnecting)) else c
  }

  /**
   The bytes appended after a direct write that answered nwrote. They are read from data + nwrote,
   so after an answer of -1 they start with whatever byte lies before the data in memory.
  */
  function Unsent(before: Byte, data: seq<Byte>, nwrote: int): (rest: seq<Byte>)
    requires -1 <= nwrote <= |data|
    ensures |rest| == if nwrote < 0 then |data| else |data| - nwrote
  {
    var memory := [before] + data;
    var remaining := if nwrote < 0 then |data| else |data| - nwrote;
    memory[1 + nwrote..1 + nwrote + remaining]
  }

  function KeepRest(c: Conn, rest: seq<Byte>): Conn {
    if rest == [] then c
    else
      var pending := |c.output| + |rest|;
      var crossed := c.opts.mark <= pending && |c.output| < c.opts.mark && c.opts.wantsHighWater;
      var noted := if crossed then c.Noted(HighWater(pending)) else c;
      var kept := noted.(output := c.output + rest);
      if kept.Writing() then kept else kept.WithInterest(kept.channel.events + WRITE_EVENT)
  }

  function Completed(c: Conn): Conn {
    if c.opts.wantsWriteComplete then c.Noted(WriteComplete) else c
  }

  predicate WritesDirectly(c: Conn) {
    c.state != Disconnected && !c.Writing() && c.output == []
  }

  /** nwroter: 0 when no direct write was tried, its count when one was, -1 when it failed. */
  function Written(c: Conn, data: seq<Byte>, r: WriteResult): (n: int)
    requires Fits(r, |data|)
    ensures -1 <= n <= |data|
  {
    if !WritesDirectly(c) then 0 else if r.Wrote? then r.n else -1
  }

  /** The connection after the direct write, if any, and before the rest of the data is buffered. */
  function AfterWrite(c: Conn, data: seq<Byte>, r: WriteResult): Conn
    requires Fits(r, |data|)
  {
    var n := Written(c, data, r);
    var taken := c.(wire := c.wire + data[..if n < 0 then 0 else n], accepted := c.accepted + data);
    if WritesDirectly(c) && n == |data| then Completed(taken) else taken
  }

  function SendInLoop(c: Conn, before: Byte, data: seq<Byte>, r: WriteResult): Conn
    requires Fits(r, |data|)
  {
    if c.state == Disconnected then c
    else if WritesDirectly(c) && r.Faulted? then HandleClose(c)
    else KeepRest(AfterWrite(c, data, r), Unsent(before, data, Written(c, data, r)))
  }

  function Drained(c: Conn): Conn {
    var quiet := match c.opts.drain
      case AsWritten => c.WithInterest(c.channel.events - READ_EVENT)
      case Intended => c.WithInterest(c.channel.events - WRITE_EVENT);
    var told := Completed(quiet);
    if told.state == Disconnecting then ShutdownInLoop(told) else told
  }

  function HandleWrite(c: Conn, r: WriteResult): Conn
    requires Fits(r, |c.output|)
  {
    if c.Writing() && r.Wrote? && r.n > 0 then
      var sent := c.(wire := c.wire + c.output[..r.n], output := c.output[r.n..]);
      if sent.output == [] then Drained(sent) else sent
    else c
  }

  function HandleRead(c: Conn, r: ReadResult): Conn {
    match r
    case ReadError => c
    case ReadBytes(bytes) =>
      if bytes == [] then HandleClose(c) else c.(input := c.input + bytes).Noted(Message)
  }

  datatype Event =
    | Establish
    | Send(before: Byte, data: seq<Byte>, result: WriteResult)       // send() on the loop thread
    | BeginSend(data: seq<Byte>)                                     // another thread passes the check of send() ...
    | EndSend(data: seq<Byte>)                                       // ... then queues sendInLoop
    | RunSend(before: Byte, data: seq<Byte>, result: WriteResult)    // the first queued sendInLoop
    | ShutdownHere                                                   // shutdown() on the loop thread
    | BeginShutdown                                                  // another thread passes its check ...
    | EndShutdown                                                    // ... then sets the state and queues
    | LoseShutdown                                                   // ... or had set it before connectDestroyed's own store
    | RunShutdown                                                    // a queued shutdownInLoop
    | Readable(read: ReadResult)
    | Writable(result: WriteResult)
    | HangUp
    | Consume(len: nat)                                              // the application retrieves input
    | Destroy

  /** The last thing it did was the down callback of connectDestroyed: that of a close is followed by the close callback. */
  predicate JustDestroyed(c: Conn) {
    c.destroyed && c.notes != [] && c.notes[|c.notes| - 1] == Down
  }

  /**
   What may happen next, as long as the object exists, whether or not connectDestroyed has run. Read and
   hang-up events are dispatched only while the channel is registered; a write event may come later than
   that, behind a read of the same dispatch whose callback closed the connection or destroyed it. Of a
   shutdown() whose store came between the check and the store of connectDestroyed only the functor is left.
  */
  predicate Enabled(c: Conn, e: Event) {
    match e
    case Establish => c.state == Connecting
    case Send(_, data, r) => Fits(r, |data|)
    case BeginSend(_) => c.state == Connected
    case EndSend(data) => data in c.sending
    case RunSend(_, data, r) => c.sends != [] && data == c.sends[0] && c.state != Connecting && Fits(r, |data|)
    case ShutdownHere => true
    case BeginShutdown => c.state == Connected
    case EndShutdown => c.stopping > 0
    case LoseShutdown => c.stopping > 0 && JustDestroyed(c)
    case RunShutdown => c.halting > 0
    case Readable(_) => c.Registered()
    case Writable(r) => c.state != Connecting && Fits(r, |c.output|)
    case HangUp => c.Registered()
    case Consume(_) => true
    case Destroy => c.state != Connecting
  }

  /** The connection when a step starts: a functor that runs is off the queue. */
  function Taken(c: Conn, e: Event): Conn
    requires Enabled(c, e)
  {
    match e
    case RunSend(_, _, _) => c.(sends := c.sends[1..])
    case RunShutdown => c.(halting := c.halting - 1)
    case _ => c
  }

  /** False for the race in shutdown(): another thread stores kDisconnecting over kDisconnected. */
  predicate Timely(c: Conn, e: Event) {
    e.EndShutdown? ==> c.state != Disconnected
  }

  /** The steps that go through handleClose, and so through the close callback. */
  predicate Closes(c: Conn, e: Event) {
    match e
    case Send(_, _, r) => c.state == Connected && WritesDirectly(c) && r.Faulted?
    case RunSend(_, _, r) => WritesDirectly(c) && r.Faulted?
    case Readable(r) => r == ReadBytes([])
    case HangUp => true
    case _ => false
  }

  function Apply(c: Conn, e: Event): Conn
    requires Enabled(c, e)
  {
    match e
    case Establish => ConnectEstablished(c)
    case Send(before, data, r) => if c.state == Connected then SendInLoop(c, before, data, r) else c
    case BeginSend(data) => c.(sending := c.sending + multiset{data})
    case EndSend(data) => c.(sending := c.sending - multiset{data}, sends := c.sends + [data], handed := c.handed + [data])
    case RunSend(before, data, r) => SendInLoop(Taken(c, e), before, data, r)
    case ShutdownHere => Shutdown(c)
    case BeginShutdown => c.(stopping := c.stopping + 1)
    case EndShutdown =>
      c.(stopping := c.stopping - 1, halting := c.halting + 1, state := Disconnecting, late := c.late || c.state == Disconnected)
    case LoseShutdown => c.(stopping := c.stopping - 1, halting := c.halting + 1)
    case RunShutdown => ShutdownInLoop(Taken(c, e))
    case Readable(r) => HandleRead(c, r)
    case Writable(r) => HandleWrite(c, r)
    case HangUp => HandleClose(c)
    case Consume(len) => c.(input := if len < |c.input| then c.input[len..] else [])
    case Destroy => ConnectDestroyed(c)
  }

  ghost predicate IsRun(cs: seq<Conn>, es: seq<Event>) {
    && |cs| == |es| + 1
    && cs[0] == Fresh(cs[0].channel.fd, cs[0].opts)
    && forall i :: 0 <= i < |es| ==> StepAt(cs, es, i)
  }

  ghost predicate StepAt(cs: seq<Conn>, es: seq<Event>, i: nat)
    requires i < |es| && |cs| == |es| + 1
  {
    Enabled(cs[i], es[i]) && cs[i + 1] == Apply(cs[i], es[i])
  }

  function Count(notes: seq<Note>, n: Note): nat {
    multiset(notes)[n]
  }
}
