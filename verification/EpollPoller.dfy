/** The channel of Channel.h and Channel.cpp and the poller of Poller.cpp and EpollPoller.cpp. */
module Epoll {
  import opened ChannelStates
  import opened EpollRegistry

  /** The callbacks a channel dispatches to. */
  datatype Handler = OnError | OnClose | OnRead | OnWrite

  /** What a dispatch comes to: the callbacks made, in order, and whether a missing read callback ended the process. */
  datatype Outcome = Outcome(calls: seq<Handler>, fatal: bool)

  /** One entry of the array epoll_wait fills: the interest it matched, by fd, and what happened there. */
  datatype Ready = Ready(fd: int, revents: Mask)

  class Channel {
    const loop: EpollPoller
    const fd: int
    var events: Mask
    var revents: Mask
    var index: Index
    var tied: bool
    var callbacks: set<Handler>

    constructor (loop: EpollPoller, fd: int)
      requires loop.Valid() && forall c: Channel :: c in loop.live ==> c.fd != fd
      modifies loop`live
      ensures this.loop == loop && this.fd == fd
      ensures loop.live == old(loop.live) + {this}
      ensures loop.Valid() && !tied && callbacks == {}
      ensures State() == ChannelState(fd, NONE_EVENT, New)
    {
      this.loop, this.fd := loop, fd;
      events, revents, index, tied, callbacks := NONE_EVENT, NONE_EVENT, New, false, {};
      new;
      ghost var before := loop.View();
      loop.live := loop.live + {this};
      assert loop.View() == EpollRegistry.Apply(before, Open(this, fd));
      ApplyAgrees(before, Open(this, fd));
    }

    ghost function State(): ChannelState
      reads this
    {
      ChannelState(fd, events, index)
    }

    ghost predicate Valid()
      reads this, loop, loop.live
    {
      this in loop.live && loop.Valid()
    }

    /** This channel's own part of a change of interest. */
    ghost function Interested(mask: Mask): ChannelState
      reads this
    {
      var c := State().(events := mask);
      c.(index := UpdatedIndex(c))
    }

    method Tie()
      requires Valid()
      modifies this`tied
      ensures Valid() && tied && State() == old(State()) && loop.View() == old(loop.View())
    {
      tied := true;
      assert loop.View() == old(loop.View());
    }

    method EnableReading()
      requires Valid()
      modifies this`events, this`index, loop`channels, loop`kernel, loop`refused
      ensures Valid() && loop.View() == SetEvents(old(loop.View()), this, old(events) + READ_EVENT)
      ensures State() == old(Interested(events + READ_EVENT))
    {
      events := events + READ_EVENT;
      Update(old(loop.View()));
    }

    method DisableReading()
      requires Valid()
      modifies this`events, this`index, loop`channels, loop`kernel, loop`refused
      ensures Valid() && loop.View() == SetEvents(old(loop.View()), this, old(events) - READ_EVENT)
      ensures State() == old(Interested(events - READ_EVENT))
    {
      events := events - READ_EVENT;
      Update(old(loop.View()));
    }

    method EnableWriting()
      requires Valid()
      modifies this`events, this`index, loop`channels, loop`kernel, loop`refused
      ensures Valid() && loop.View() == SetEvents(old(loop.View()), this, old(events) + WRITE_EVENT)
      ensures State() == old(Interested(events + WRITE_EVENT))
    {
      events := events + WRITE_EVENT;
      Update(old(loop.View()));
    }

    method DisableWriting()
      requires Valid()
      modifies this`events, this`index, loop`channels, loop`kernel, loop`refused
      ensures Valid() && loop.View() == SetEvents(old(loop.View()), this, old(events) - WRITE_EVENT)
      ensures State() == old(Interested(events - WRITE_EVENT))
    {
      events := events - WRITE_EVENT;
      Update(old(loop.View()));
    }

    method DisableAll()
      requires Valid()
      modifies this`events, this`index, loop`channels, loop`kernel, loop`refused
      ensures Valid() && loop.View() == SetEvents(old(loop.View()), this, NONE_EVENT)
      ensures State() == old(Interested(NONE_EVENT))
    {
      events := NONE_EVENT;
      Update(old(loop.View()));
    }

    /** Tells the poller about the new mask; before is the registry when the mask still was the old one. */
    method Update(ghost before: Registry<Channel>)
      requires this in loop.live && (forall c :: c in loop.live ==> c.loop == loop)
      requires this in before.live && Agrees(before)
      requires loop.View() == before.(live := before.live[this := before.live[this].(events := events)])
      modifies this`index, loop`channels, loop`kernel, loop`refused
      ensures Valid() && loop.View() == SetEvents(before, this, events)
      ensures State() == old(Interested(events))
    {
      SetEventsAgrees(before, this, events);
      loop.UpdateChannel(this);
    }

    method Remove()
      requires Valid()
      modifies this`index, loop`channels, loop`kernel, loop`refused
      ensures Valid() && loop.View() == RemoveChannel(old(loop.View()), this)
      ensures State() == old(State()).(index := New)
    {
      RemoveChannelAgrees(loop.View(), this);
      loop.RemoveChannel(this);
    }

    /** setReadEventCallback and its three brothers. */
    method SetCallback(h: Handler)
      requires Valid()
      modifies this`callbacks
      ensures Valid() && callbacks == old(callbacks) + {h} && State() == old(State()) && loop.View() == old(loop.View())
    {
      callbacks := callbacks + {h};
      assert loop.View() == old(loop.View());
    }

    /** The callbacks that run for the returned events; none, once the owner a channel was tied to is gone. */
    method HandleEvent(ownerAlive: bool) returns (r: Outcome)
      ensures r == if tied && !ownerAlive then Outcome([], false) else Dispatch(revents, callbacks)
    {
      r := Outcome([], false);
      if tied {
        if ownerAlive {
          r := HandleEventWithGuard();
        }
      } else {
        r := HandleEventWithGuard();
      }
    }

    method HandleEventWithGuard() returns (r: Outcome)
      ensures r == Dispatch(revents, callbacks)
      ensures OnWrite in r.calls <==> OnWrite in callbacks && Out in revents && !Some(revents, {Err, Hup, RdHup}) && !r.fatal
      ensures OnRead in r.calls <==> OnRead in callbacks && Some(revents, {In, Pri}) && !Some(revents, {Err, Hup, RdHup})
    {
      DueExactly(revents);
      DispatchIsComplete(revents, callbacks);
      PresentOne(true, OnError, callbacks);
      PresentOne(true, OnClose, callbacks);
      PresentTwo(revents * {In, Pri} != {}, Out in revents, callbacks);
      var calls := [];
      if Err in revents {
        if OnError in callbacks { calls := calls + [OnError]; }
        return Outcome(calls, false);
      }
      if revents * {Hup, RdHup} != {} {
        if OnClose in callbacks { calls := calls + [OnClose]; }
        return Outcome(calls, false);
      }
      if revents * {In, Pri} != {} {
        if OnRead in callbacks {
          calls := calls + [OnRead];
        } else {
          return Outcome(calls, true);
        }
      }
      if Out in revents {
        if OnWrite in callbacks { calls := calls + [OnWrite]; }
      }
      return Outcome(calls, false);
    }
  }

  function Due(revents: Mask): seq<Handler> {
    if Err in revents then [OnError]
    else if revents * {Hup, RdHup} != {} then [OnClose]
    else If(revents * {In, Pri} != {}, OnRead) + If(Out in revents, OnWrite)
  }

  function Dispatch(revents: Mask, callbacks: set<Handler>): Outcome {
    if OnRead in Due(revents) && OnRead !in callbacks then Outcome([], true)
    else Outcome(Present(Due(revents), callbacks), false)
  }

  function Present(calls: seq<Handler>, callbacks: set<Handler>): seq<Handler> {
    if calls == [] then []
    else (if calls[0] in callbacks then [calls[0]] else []) + Present(calls[1..], callbacks)
  }

  function If(due: bool, h: Handler): seq<Handler> {
    if due then [h] else []
  }

  lemma PresentOne(due: bool, h: Handler, callbacks: set<Handler>)
    ensures Present(If(due, h), callbacks) == If(due && h in callbacks, h)
  {
  }

  lemma PresentTwo(read: bool, write: bool, callbacks: set<Handler>)
    ensures Present(If(read, OnRead) + If(write, OnWrite), callbacks)
            == If(read && OnRead in callbacks, OnRead) + If(write && OnWrite in callbacks, OnWrite)
  {
    PresentOne(write, OnWrite, callbacks);
    if read {
      assert ([OnRead] + If(write, OnWrite))[1..] == If(write, OnWrite);
    } else {
      assert [] + If(write, OnWrite) == If(write, OnWrite);
    }
  }

  /**
   An error hides everything else, a hang-up hides what is still readable, reading comes before
   writing, and as long as some event was returned some callback is due.
  */
  lemma DispatchPriority(revents: Mask)
    ensures var calls := Due(revents);
            && (OnError in calls <==> Err in revents)
            && (OnClose in calls <==> revents * {Hup, RdHup} != {} && Err !in revents)
            && (OnError in calls || OnClose in calls ==> |calls| == 1)
            && (|calls| == 2 ==> calls == [OnRead, OnWrite])
            && (calls == [] <==> revents == {})
  {
    if revents != {} {
      var b :| b in revents;
      assert b.Hup? || b.RdHup? ==> b in revents * {Hup, RdHup};
      assert b.In? || b.Pri? ==> b in revents * {In, Pri};
    }
  }

  /** Some of these happened. */
  predicate Some(revents: Mask, bits: Mask) {
    revents * bits != {}
  }

  /** Each callback is due exactly when its events happened and none that hides them, once, and reading before writing. */
  lemma DueExactly(revents: Mask)
    ensures var calls := Due(revents);
            && (OnError in calls <==> Err in revents)
            && (OnClose in calls <==> Some(revents, {Hup, RdHup}) && Err !in revents)
            && (OnRead in calls <==> Some(revents, {In, Pri}) && !Some(revents, {Err, Hup, RdHup}))
            && (OnWrite in calls <==> Out in revents && !Some(revents, {Err, Hup, RdHup}))
            && (forall i, j :: 0 <= i < j < |calls| ==> calls[i] == OnRead && calls[j] == OnWrite)
  {
    assert Err in revents ==> Err in revents * {Err, Hup, RdHup};
    if b :| b in revents * {Hup, RdHup} {
      assert b in revents * {Err, Hup, RdHup};
    }
    if b :| b in revents * {Err, Hup, RdHup} {
      assert b.Err? || b in revents * {Hup, RdHup};
    }
  }

  /**
   A channel with all its callbacks, as a connection's is, makes just those that are due. The process ends
   if and only if the read callback is missing when something is to be read, before anything else is called.
  */
  lemma DispatchIsComplete(revents: Mask, callbacks: set<Handler>)
    ensures callbacks == {OnError, OnClose, OnRead, OnWrite} ==> Dispatch(revents, callbacks) == Outcome(Due(revents), false)
    ensures Dispatch(revents, callbacks).fatal <==>
            OnRead !in callbacks && revents * {In, Pri} != {} && revents * {Err, Hup, RdHup} == {}
    ensures Dispatch(revents, callbacks).fatal ==> Dispatch(revents, callbacks).calls == []
    ensures !Dispatch(revents, callbacks).fatal ==>
              forall h :: h in Dispatch(revents, callbacks).calls <==> h in Due(revents) && h in callbacks
  {
    var calls := Due(revents);
    PresentAre(calls, callbacks);
    assert Err in revents ==> Err in revents * {Err, Hup, RdHup};
    if b :| b in revents * {Hup, RdHup} {
      assert b in revents * {Err, Hup, RdHup};
    }
    if b :| b in revents * {Err, Hup, RdHup} {
      assert b.Err? || b in revents * {Hup, RdHup};
    }
  }

  lemma {:induction false} PresentAre(calls: seq<Handler>, callbacks: set<Handler>)
    ensures forall h :: h in Present(calls, callbacks) <==> h in calls && h in callbacks
    ensures (forall h :: h in calls ==> h in callbacks) ==> Present(calls, callbacks) == calls
  {
    if calls != [] {
      PresentAre(calls[1..], callbacks);
      assert calls == [calls[0]] + calls[1..];
    }
  }

  class EpollPoller {
    var channels: map<int, Channel>
    var kernel: map<int, Interest<Channel>>
    var refused: nat
    ghost var live: set<Channel>

    constructor ()
      ensures Valid() && live == {} && View() == Registry(map[], map[], map[], 0)
    {
      channels, kernel, refused, live := map[], map[], 0, {};
    }

    ghost function View(): Registry<Channel>
      reads this, live
    {
      Registry(map c | c in live :: c.State(), channels, kernel, refused)
    }

    ghost predicate Valid()
      reads this, live
    {
      Agrees(View()) && forall c :: c in live ==> c.loop == this
    }

    method UpdateChannel(c: Channel)
      requires c in live
      modifies this`channels, this`kernel, this`refused, c`index
      ensures View() == EpollRegistry.UpdateChannel(old(View()), c)
    {
      if c.index == New || c.index == Deleted {
        Register(c);
      } else if c.events == NONE_EVENT {
        c.index := Deleted;
        Update(Del, c);
      } else {
        Update(Mod, c);
      }
    }

    method Register(c: Channel)
      requires c in live && c.index != Added
      modifies this`channels, this`kernel, this`refused, c`index
      ensures View() == EpollRegistry.UpdateChannel(old(View()), c)
    {
      if c.index == New {
        channels := channels[c.fd := c];
      }
      c.index := Added;
      Update(Add, c);
    }

    method RemoveChannel(c: Channel)
      requires c in live
      modifies this`channels, this`kernel, this`refused, c`index
      ensures View() == EpollRegistry.RemoveChannel(old(View()), c)
    {
      channels := channels - {c.fd};
      var index := c.index;
      if index == Added {
        Update(Del, c);
      }
      c.index := New;
    }

    /** The epoll_ctl call, whose failures are only counted: the source logs them. */
    method Update(op: Operation, c: Channel)
      requires c in live
      modifies this`kernel, this`refused
      ensures View() == EpollCtl(old(View()), op, c)
    {
      match op
      case Add =>
        if c.fd in kernel { refused := refused + 1; } else { kernel := kernel[c.fd := Interest(c, c.events)]; }
      case Mod =>
        if c.fd in kernel { kernel := kernel[c.fd := Interest(c, c.events)]; } else { refused := refused + 1; }
      case Del =>
        if c.fd in kernel { kernel := kernel - {c.fd}; } else { refused := refused + 1; }
    }

    /** Asks by fd and identity; while everything agrees that is the same as asking the channel's index. */
    method HasChannel(c: Channel) returns (has: bool)
      requires Valid() && c in live
      ensures has <==> c.index != New
    {
      assert ChannelAgrees(View(), c);
      has := c.fd in channels && channels[c.fd] == c;
    }

    /**
     Turns what epoll_wait returned into the list of active channels. The kernel reports an fd at most
     once and only fds it watches, so every channel on the list exists, is registered, appears once,
     and carries the events of its own entry.
    */
    method FillActiveChannels(ready: seq<Ready>) returns (active: seq<Channel>)
      requires Valid()
      requires forall i :: 0 <= i < |ready| ==> ready[i].fd in kernel
      requires forall i, j :: 0 <= i < j < |ready| ==> ready[i].fd != ready[j].fd
      modifies (set c | c in live)`revents
      ensures Valid() && View() == old(View()) && live == old(live) && |active| == |ready|
      ensures forall i :: 0 <= i < |ready| ==>
                active[i] in live && active[i].index == Added
                && active[i].fd == ready[i].fd && active[i].revents == ready[i].revents
    {
      active := [];
      for i := 0 to |ready|
        invariant |active| == i && live == old(live) && kernel == old(kernel) && View() == old(View())
        invariant forall k :: 0 <= k < i ==>
                    active[k] in live && active[k].index == Added
                    && active[k].fd == ready[k].fd && active[k].revents == ready[k].revents
      {
        var c := kernel[ready[i].fd].id;
        assert ChannelAgrees(View(), c);
        assert c.fd == View().live[c].fd;
        c.revents := ready[i].revents;
        active := active + [c];
      }
    }
  }
}
