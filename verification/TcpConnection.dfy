/** The connection object of TcpConnection.cpp, over a real channel, a real poller and real buffers. */
module TcpConnections {
  import opened Bytes
  import opened ChannelStates
  import opened Buffers
  import opened Epoll
  import opened Connections
  import opened ConnectionTheorems
  import opened ConnectionRuns
  import opened ConnectionLaws
  import EpollRegistry

  class TcpConnection {
    const opts: Options
    const channel: Channel
    const outputBuffer: Buffer
    const inputBuffer: Buffer
    var state: State
    var wire: seq<Byte>            // the kernel's side of the socket
    var notes: seq<Note>           // callbacks made or queued, and shutdownWrite calls
    var sends: seq<seq<Byte>>      // sendInLoop calls in the loop's queue
    ghost var accepted: seq<Byte>
    ghost var sending: multiset<seq<Byte>>
    ghost var handed: seq<seq<Byte>>
    ghost var stopping: nat
    ghost var halting: nat
    ghost var destroyed: bool
    ghost var late: bool

    ghost predicate Valid()
      reads this, channel, channel.loop, channel.loop.live, outputBuffer, inputBuffer
    {
      && channel.Valid()
      && outputBuffer.Valid() && inputBuffer.Valid()
      && outputBuffer != inputBuffer && outputBuffer.data != inputBuffer.data
      && opts.drain == AsWritten
    }

    /** The connection as a value. */
    ghost function Model(): Conn
      requires Valid()
      reads this, channel, channel.loop, channel.loop.live, outputBuffer, inputBuffer, outputBuffer.data, inputBuffer.data
    {
      Conn(opts, state, channel.State(), outputBuffer.Contents(), inputBuffer.Contents(),
           wire, accepted, sending, sends, handed, stopping, halting, destroyed, late, notes)
    }

    constructor (loop: EpollPoller, fd: int, opts: Options)
      requires loop.Valid() && opts.drain == AsWritten
      requires forall c: Channel :: c in loop.live ==> c.fd != fd
      modifies loop`live
      ensures Valid() && this.opts == opts && channel.loop == loop && channel.callbacks == {OnError, OnClose, OnRead, OnWrite}
      ensures Model() == Fresh(fd, opts) && !channel.tied
    {
      this.opts := opts;
      state, wire, notes, sends := Connecting, [], [], [];
      sending, handed := multiset{}, [];
      accepted, stopping, halting, destroyed, late := [], 0, 0, false, false;
      outputBuffer := new Buffer();
      inputBuffer := new Buffer();
      channel := new Channel(loop, fd);
      new;
      SetCallbacks();
    }

    method SetCallbacks()
      requires Valid() && channel.callbacks == {}
      modifies channel`callbacks
      ensures Valid() && Model() == old(Model()) && channel.callbacks == {OnError, OnClose, OnRead, OnWrite}
    {
      channel.SetCallback(OnRead);
      channel.SetCallback(OnWrite);
      channel.SetCallback(OnClose);
      channel.SetCallback(OnError);
    }

    method SetState(s: State)
      requires Valid()
      modifies this`state
      ensures Valid() && Model() == old(Model()).(state := s)
    {
      state := s;
    }

    /** A callback made or queued, or a shutdownWrite. */
    method Tell(n: Note)
      requires Valid()
      modifies this`notes
      ensures Valid() && Model() == old(Model()).Noted(n)
    {
      notes := notes + [n];
    }

    method ConnectEstablished()
      requires Valid()
      modifies this`state, this`notes, channel`events, channel`index, channel`tied, channel.loop`channels, channel.loop`kernel, channel.loop`refused
      ensures Valid() && Model() == Connections.ConnectEstablished(old(Model())) && channel.tied
    {
      SetState(Connected);
      channel.Tie();
      channel.EnableReading();
      Tell(Up);
    }

    method ConnectDestroyed()
      requires Valid()
      modifies this`state, this`notes, this`destroyed, channel`events, channel`index, channel.loop`channels, channel.loop`kernel, channel.loop`refused
      ensures Valid() && Model() == Connections.ConnectDestroyed(old(Model()))
    {
      if state == Connected {
        Disconnect();
      }
      channel.Remove();
      destroyed := true;
    }

    /** What handleClose and connectDestroyed have in common. */
    method Disconnect()
      requires Valid()
      modifies this`state, this`notes, channel`events, channel`index, channel.loop`channels, channel.loop`kernel, channel.loop`refused
      ensures Valid() && Model() == old(Model()).(state := Disconnected).WithInterest(NONE_EVENT).Noted(Down)
    {
      SetState(Disconnected);
      channel.DisableAll();
      Tell(Down);
    }

    /** The connection callback, then the close callback through which the server lets go of it. */
    method HandleClose()
      requires Valid()
      modifies this`state, this`notes, channel`events, channel`index, channel.loop`channels, channel.loop`kernel, channel.loop`refused
      ensures Valid() && Model() == Connections.HandleClose(old(Model()))
    {
      Disconnect();
      Tell(Closed);
    }

    /** On the loop thread the data is sent at once; on any other sendInLoop is queued with it. */
    method Send(inLoopThread: bool, before: Byte, data: seq<Byte>, r: WriteResult)
      requires Valid() && Fits(r, |data|)
      modifies this, channel`events, channel`index, channel.loop`channels, channel.loop`kernel, channel.loop`refused, outputBuffer, outputBuffer.data
      ensures Valid()
      ensures old(state) != Connected ==> Model() == old(Model())
      ensures old(state) == Connected && inLoopThread ==> Model() == Connections.SendInLoop(old(Model()), before, data, r)
      ensures old(state) == Connected && !inLoopThread ==>
                Model() == old(Model()).(sends := old(sends) + [data], handed := old(handed) + [data])
    {
      if state == Connected {
        if inLoopThread {
          SendInLoop(before, data, r);
        } else {
          sends := sends + [data];
          handed := handed + [data];
        }
      }
    }

    /** The loop runs the first sendInLoop of its queue. */
    method RunSend(before: Byte, r: WriteResult)
      requires Valid() && sends != [] && Fits(r, |sends[0]|) && state != Connecting
      modifies this, channel`events, channel`index, channel.loop`channels, channel.loop`kernel, channel.loop`refused, outputBuffer, outputBuffer.data
      ensures Valid() && Model() == Apply(old(Model()), Event.RunSend(before, old(sends)[0], r))
    {
      var data := sends[0];
      sends := sends[1..];
      SendInLoop(before, data, r);
    }

    /**
     data lies in memory behind the byte before; r is what a direct write answers, if one is tried.
     Whatever is not written is appended from data + nwrote.
    */
    method SendInLoop(before: Byte, data: seq<Byte>, r: WriteResult)
      requires Valid() && Fits(r, |data|)
      modifies this, channel`events, channel`index, channel.loop`channels, channel.loop`kernel, channel.loop`refused, outputBuffer, outputBuffer.data
      ensures Valid() && Model() == Connections.SendInLoop(old(Model()), before, data, r)
      ensures Clear(old(Model())) && r.Wrote? ==> wire == old(wire) + data[..r.n] && outputBuffer.Contents() == data[r.n..]
    {
      SendInLoopExactly(Model(), before, data, r);
      if state == Disconnected {
        return;
      }
      var pending := outputBuffer.ReadableBytes();
      if Out !in channel.events && pending == 0 {
        if r == Faulted {
          HandleClose();
        } else {
          WriteFirst(before, data, r);
        }
      } else {
        Take(data, 0);
        KeepUnsent(before, data, 0);
      }
    }

    /** The fast path: a direct write, and then the buffer for what it left. */
    method WriteFirst(before: Byte, data: seq<Byte>, r: WriteResult)
      requires Valid() && Fits(r, |data|) && r != Faulted && WritesDirectly(Model())
      modifies this, channel`events, channel`index, channel.loop`channels, channel.loop`kernel, channel.loop`refused, outputBuffer, outputBuffer.data
      ensures Valid()
      ensures Model() == KeepRest(AfterWrite(old(Model()), data, r), Unsent(before, data, Written(old(Model()), data, r)))
    {
      var nwrote := DirectWrite(data, r);
      KeepUnsent(before, data, nwrote);
    }

    method DirectWrite(data: seq<Byte>, r: WriteResult) returns (nwrote: int)
      requires Valid() && Fits(r, |data|) && r != Faulted && WritesDirectly(Model())
      modifies this`wire, this`accepted, this`notes
      ensures Valid() && Model() == AfterWrite(old(Model()), data, r)
      ensures nwrote == Written(old(Model()), data, r)
      ensures r.Wrote? ==> wire == old(wire) + data[..r.n] && nwrote == r.n
    {
      nwrote := if r.Wrote? then r.n else -1;
      Take(data, if nwrote < 0 then 0 else nwrote);
      if nwrote == |data| && opts.wantsWriteComplete {
        Tell(WriteComplete);
      }
    }

    /** The connection now answers for the data, the kernel for its first n bytes. */
    method Take(data: seq<Byte>, n: nat)
      requires Valid() && n <= |data|
      modifies this`wire, this`accepted
      ensures Valid()
      ensures Model() == old(Model()).(wire := old(wire) + data[..n], accepted := old(accepted) + data)
    {
      wire := wire + data[..n];
      accepted := accepted + data;
    }

    method KeepUnsent(before: Byte, data: seq<Byte>, nwrote: int)
      requires Valid() && -1 <= nwrote <= |data|
      modifies this`notes, channel`events, channel`index, channel.loop`channels, channel.loop`kernel, channel.loop`refused, outputBuffer, outputBuffer.data
      ensures Valid() && Model() == KeepRest(old(Model()), Unsent(before, data, nwrote))
    {
      var remaining := if nwrote < 0 then |data| else |data| - nwrote;
      if remaining > 0 {
        Keep(Unsent(before, data, nwrote));
      }
    }

    /** The last part of sendInLoop: what could not be written now is buffered. */
    method Keep(rest: seq<Byte>)
      requires Valid() && rest != []
      modifies this`notes, channel`events, channel`index, channel.loop`channels, channel.loop`kernel, channel.loop`refused, outputBuffer, outputBuffer.data
      ensures Valid() && Model() == KeepRest(old(Model()), rest)
    {
      ghost var c := Model();
      TellIfCrossing(|rest|);
      AppendOutput(rest);
      ghost var kept := Model();
      WantWriting();
      assert KeepRest(c, rest) == if kept.Writing() then kept else kept.WithInterest(kept.channel.events + WRITE_EVENT);
    }

    method WantWriting()
      requires Valid()
      modifies channel`events, channel`index, channel.loop`channels, channel.loop`kernel, channel.loop`refused
      ensures Valid()
      ensures var c := old(Model());
              Model() == if c.Writing() then c else c.WithInterest(c.channel.events + WRITE_EVENT)
    {
      if Out !in channel.events {
        channel.EnableWriting();
      }
    }

    method TellIfCrossing(more: nat)
      requires Valid()
      modifies this`notes
      ensures Valid()
      ensures var c, pending := old(Model()), |old(Model()).output| + more;
              Model() == if c.opts.mark <= pending && |c.output| < c.opts.mark && c.opts.wantsHighWater
                         then c.Noted(HighWater(pending)) else c
    {
      var oldLen := outputBuffer.ReadableBytes();
      if oldLen + more >= opts.mark && oldLen < opts.mark && opts.wantsHighWater {
        Tell(HighWater(oldLen + more));
      }
    }

    method AppendOutput(rest: seq<Byte>)
      requires Valid()
      modifies outputBuffer, outputBuffer.data
      ensures Valid() && Model() == old(Model()).(output := old(outputBuffer.Contents()) + rest)
    {
      outputBuffer.Append(rest);
    }

    method HandleRead(r: ReadResult)
      requires Valid() && (r.ReadBytes? ==> |r.bytes| <= inputBuffer.Layout().ReadCapacity())
      modifies this`state, this`notes, channel`events, channel`index, channel.loop`channels, channel.loop`kernel, channel.loop`refused, inputBuffer, inputBuffer.data
      ensures Valid() && Model() == Connections.HandleRead(old(Model()), r)
      ensures inputBuffer.Contents() == old(inputBuffer.Contents()) + if r.ReadBytes? then r.bytes else []
    {
      var n := inputBuffer.ReadFd(r);
      if n > 0 {
        Tell(Message);
      } else if n == 0 {
        assert inputBuffer.Contents() == old(inputBuffer.Contents());
        HandleClose();
      }
    }

    method HandleWrite(r: WriteResult)
      requires Valid() && Fits(r, |outputBuffer.Contents()|)
      modifies this`wire, this`notes, channel`events, channel`index, channel.loop`channels, channel.loop`kernel, channel.loop`refused, outputBuffer
      ensures Valid() && Model() == Connections.HandleWrite(old(Model()), r)
      ensures Out in old(channel.events) && r.Wrote? ==>
                wire == old(wire) + old(outputBuffer.Contents())[..r.n] && outputBuffer.Contents() == old(outputBuffer.Contents())[r.n..]
    {
      HandleWriteEffect(Model(), r);
      if Out in channel.events {
        var n: int := if r.Wrote? then r.n else -1;
        if n > 0 {
          RetrieveOutput(n);
          var left := outputBuffer.ReadableBytes();
          if left == 0 {
            AfterDrain();
          }
        }
      }
    }

    /** writeFd gave the kernel n bytes from the front of the output buffer. */
    method RetrieveOutput(n: nat)
      requires Valid() && n <= |outputBuffer.Contents()|
      modifies this`wire, outputBuffer
      ensures Valid()
      ensures Model() == old(Model()).(wire := old(wire) + old(outputBuffer.Contents())[..n],
                                       output := old(outputBuffer.Contents())[n..])
    {
      ghost var pending := outputBuffer.Contents();
      var front := outputBuffer.data[outputBuffer.readerIndex..outputBuffer.readerIndex + n];
      assert front == pending[..n];
      wire := wire + front;
      outputBuffer.Retrieve(n);
    }

    /** The part of handleWrite that runs when the output buffer has just become empty. */
    method AfterDrain()
      requires Valid()
      modifies this`notes, channel`events, channel`index, channel.loop`channels, channel.loop`kernel, channel.loop`refused
      ensures Valid() && Model() == Drained(old(Model()))
    {
      channel.DisableReading();
      if opts.wantsWriteComplete {
        Tell(WriteComplete);
      }
      if state == Disconnecting {
        ShutdownInLoop();
      }
    }

    /** On the loop thread shutdownInLoop follows at once; from any other it is queued. */
    method Shutdown(inLoopThread: bool)
      requires Valid()
      modifies this`state, this`notes, this`halting
      ensures Valid()
      ensures state == if old(state) == Connected then Disconnecting else old(state)
      ensures inLoopThread ==> Model() == Connections.Shutdown(old(Model()))
      ensures !inLoopThread ==>
                Model() == if old(state) == Connected then old(Model()).(state := Disconnecting, halting := old(halting) + 1)
                           else old(Model())
    {
      if state == Connected {
        SetState(Disconnecting);
        if inLoopThread {
          ShutdownInLoop();
        } else {
          halting := halting + 1;
        }
      }
    }

    method ShutdownInLoop()
      requires Valid()
      modifies this`notes
      ensures Valid() && Model() == Connections.ShutdownInLoop(old(Model()))
    {
      if Out !in channel.events {
        Tell(Fin);
      }
    }
  }

  /** An uninterrupted send() on another thread is the check and the queueing, one after the other. */
  lemma SendElsewhere(c: Conn, data: seq<Byte>)
    requires Enabled(c, BeginSend(data))
    ensures Enabled(Apply(c, BeginSend(data)), EndSend(data))
    ensures Apply(Apply(c, BeginSend(data)), EndSend(data)) == c.(sends := c.sends + [data], handed := c.handed + [data])
  {
    assert c.sending + multiset{data} - multiset{data} == c.sending;
  }

  /** An uninterrupted shutdown() on another thread is the check and the store, one after the other. */
  lemma ShutdownElsewhere(c: Conn)
    requires Enabled(c, BeginShutdown)
    ensures Enabled(Apply(c, BeginShutdown), EndShutdown)
    ensures Apply(Apply(c, BeginShutdown), EndShutdown) == c.(state := Disconnecting, halting := c.halting + 1)
  {
  }

  ghost predicate WatchedForWriting(t: TcpConnection)
    requires t.Valid()
    reads t, t.channel, t.channel.loop, t.channel.loop.live, t.outputBuffer, t.inputBuffer
  {
    var p := t.channel.loop;
    t.channel.fd in p.kernel && p.kernel[t.channel.fd].id == t.channel && Out in p.kernel[t.channel.fd].mask
  }

  /**
   The kernel watches a live connection with pending bytes for EPOLLOUT, under its own channel, if and
   only if no late shutdown left them stranded: the invariant of the connection and the agreement of the
   poller's records, put together.
  */
  lemma PendingIsWatched(t: TcpConnection)
    requires t.Valid() && Inv(t.Model()) && t.Model().Alive() && t.Model().output != []
    ensures WatchedForWriting(t) <==> !Stranded(t.Model())
    ensures !t.late ==> WatchedForWriting(t)
  {
    var r := t.channel.loop.View();
    assert t.channel in r.live && r.live[t.channel] == t.channel.State();
    assert EpollRegistry.ChannelAgrees(r, t.channel);
  }
}
