/** A channel's own state: its fd, the events it asks for, and its index in the poller (Channel.h). */
module ChannelStates {

  datatype EventBit = In | Pri | Out | Err | Hup | RdHup
  type Mask = set<EventBit>

  const NONE_EVENT: Mask := {}
  const READ_EVENT: Mask := {In, Pri}
  const WRITE_EVENT: Mask := {Out}

  /** kNew, kAdded and kDeleted of EpollPoller.cpp. */
  datatype Index = New | Added | Deleted

  datatype ChannelState = ChannelState(fd: int, events: Mask, index: Index)

  /** What updateChannel makes of the channel's own index. */
  function UpdatedIndex(c: ChannelState): Index {
    if c.index != Added then Added
    else if c.events == NONE_EVENT then Deleted
    else Added
  }
}

/**
 Which channels the poller knows and which of them the kernel watches, as values: the index of each
 channel, the poller's map from fd to channel, and the kernel's interest list behind epoll_ctl.
 A channel is named by an Id, which the classes of EpollPoller.dfy instantiate by the channel itself.
*/
module EpollRegistry {
  import opened ChannelStates

  datatype Operation = Add | Mod | Del

  datatype Interest<Id> = Interest(id: Id, mask: Mask)

  datatype Registry<Id(==)> = Registry(
    live: map<Id, ChannelState>,       // the channels that exist
    channels: map<int, Id>,            // the poller's map
    kernel: map<int, Interest<Id>>,    // the kernel's interest list
    refused: nat                       // how many epoll_ctl calls failed
  )

  /** epoll_ctl: ADD wants the fd absent, MOD and DEL want it present; otherwise the call fails. */
  function EpollCtl<Id(==)>(r: Registry<Id>, op: Operation, id: Id): Registry<Id>
    requires id in r.live
  {
    var c := r.live[id];
    match op
    case Add =>
      if c.fd in r.kernel then r.(refused := r.refused + 1)
      else r.(kernel := r.kernel[c.fd := Interest(id, c.events)])
    case Mod =>
      if c.fd in r.kernel then r.(kernel := r.kernel[c.fd := Interest(id, c.events)])
      else r.(refused := r.refused + 1)
    case Del =>
      if c.fd in r.kernel then r.(kernel := r.kernel - {c.fd})
      else r.(refused := r.refused + 1)
  }

  function UpdateChannel<Id(==)>(r: Registry<Id>, id: Id): Registry<Id>
    requires id in r.live
  {
    var c := r.live[id];
    var mapped := if c.index == New then r.(channels := r.channels[c.fd := id]) else r;
    var next := mapped.(live := r.live[id := c.(index := UpdatedIndex(c))]);
    var op := if c.index != Added then Add else if c.events == NONE_EVENT then Del else Mod;
    EpollCtl(next, op, id)
  }

  /** One of the enable and disable members of the channel: a new interest mask, then an update. */
  function SetEvents<Id(==)>(r: Registry<Id>, id: Id, events: Mask): Registry<Id>
    requires id in r.live
  {
    UpdateChannel(r.(live := r.live[id := r.live[id].(events := events)]), id)
  }

  function RemoveChannel<Id(==)>(r: Registry<Id>, id: Id): Registry<Id>
    requires id in r.live
  {
    var c := r.live[id];
    var unmapped := r.(channels := r.channels - {c.fd});
    var unwatched := if c.index == Added then EpollCtl(unmapped, Del, id) else unmapped;
    unwatched.(live := r.live[id := c.(index := New)])
  }

  predicate HasChannel<Id(==)>(r: Registry<Id>, id: Id)
    requires id in r.live
  {
    var fd := r.live[id].fd;
    fd in r.channels && r.channels[fd] == id
  }

  predicate Watches<Id(==)>(r: Registry<Id>, id: Id)
    requires id in r.live
  {
    var fd := r.live[id].fd;
    fd in r.kernel && r.kernel[fd].id == id
  }

  /** No two existing channels share an fd: an fd is closed only after its channel is gone. */
  ghost predicate DistinctFds<Id>(r: Registry<Id>) {
    forall a, b :: a in r.live && b in r.live && r.live[a].fd == r.live[b].fd ==> a == b
  }

  /** Index, poller map and kernel tell the same story about one channel. */
  ghost predicate ChannelAgrees<Id>(r: Registry<Id>, id: Id)
    requires id in r.live
  {
    var c := r.live[id];
    && (c.index == Added <==> Watches(r, id))
    && (c.index == Added ==> r.kernel[c.fd].mask == c.events)
    && (c.index == Deleted ==> c.events == NONE_EVENT)
    && (c.index != New <==> HasChannel(r, id))
  }

  /** ... about every channel, nothing else is registered, and no epoll_ctl call has ever failed. */
  ghost predicate Agrees<Id>(r: Registry<Id>) {
    && DistinctFds(r)
    && (forall id :: id in r.live ==> ChannelAgrees(r, id))
    && (forall fd :: fd in r.kernel ==> r.kernel[fd].id in r.live && r.live[r.kernel[fd].id].fd == fd)
    && (forall fd :: fd in r.channels ==> r.channels[fd] in r.live && r.live[r.channels[fd]].fd == fd)
    && r.refused == 0
  }

  lemma SetEventsOwn<Id>(r: Registry<Id>, id: Id, events: Mask)
    requires Agrees(r) && id in r.live
    ensures var s := SetEvents(r, id, events);
            && s.live == r.live[id := s.live[id]] && s.live[id].fd == r.live[id].fd && s.live[id].events == events
            && ChannelAgrees(s, id) && s.refused == 0
            && (forall fd :: fd != r.live[id].fd ==>
                  && (fd in s.kernel <==> fd in r.kernel) && (fd in r.kernel ==> s.kernel[fd] == r.kernel[fd])
                  && (fd in s.channels <==> fd in r.channels) && (fd in r.channels ==> s.channels[fd] == r.channels[fd]))
            && (r.live[id].fd in s.kernel ==> s.kernel[r.live[id].fd].id == id)
            && (r.live[id].fd in s.channels ==> s.channels[r.live[id].fd] == id)
  {
    assert ChannelAgrees(r, id);
    if r.live[id].fd in r.kernel {
      assert r.kernel[r.live[id].fd].id in r.live;
    }
    if r.live[id].fd in r.channels {
      assert r.channels[r.live[id].fd] in r.live;
    }
  }

  /** The call fails exactly when it adds what is watched or touches what is not, and then changes nothing but the count. */
  lemma CtlFailsExactly<Id>(r: Registry<Id>, op: Operation, id: Id)
    requires id in r.live
    ensures var s, fd := EpollCtl(r, op, id), r.live[id].fd;
            && s.live == r.live && s.channels == r.channels
            && (s.refused == r.refused + 1 <==> (op == Add <==> fd in r.kernel))
            && (s.refused != r.refused ==> s.kernel == r.kernel)
            && (s.refused == r.refused ==> (fd in s.kernel <==> op != Del))
            && (s.refused == r.refused && op != Del ==> s.kernel[fd] == Interest(id, r.live[id].events))
            && (forall other :: other != fd ==>
                  (other in s.kernel <==> other in r.kernel) && (other in r.kernel ==> s.kernel[other] == r.kernel[other]))
  {
  }

  /** An update adds a channel that is not there, even for no events, and deletes one that asks for none any more. */
  lemma SetEventsIndex<Id>(r: Registry<Id>, id: Id, events: Mask)
    requires Agrees(r) && id in r.live
    ensures var s := SetEvents(r, id, events);
            && id in s.live
            && (s.live[id].index == Deleted <==> r.live[id].index == Added && events == NONE_EVENT)
            && (s.live[id].index == Added <==> r.live[id].index != Added || events != NONE_EVENT)
            && (Watches(s, id) <==> s.live[id].index == Added) && HasChannel(s, id)
  {
    SetEventsOwn(r, id, events);
  }

  lemma SetEventsAgrees<Id>(r: Registry<Id>, id: Id, events: Mask)
    requires Agrees(r) && id in r.live
    ensures var s := SetEvents(r, id, events);
            && Agrees(s) && s.live.Keys == r.live.Keys
            && s.live[id].fd == r.live[id].fd && s.live[id].events == events
            && (forall other :: other in r.live && other != id ==> s.live[other] == r.live[other])
  {
    var s := SetEvents(r, id, events);
    SetEventsOwn(r, id, events);
    forall other | other in s.live
      ensures ChannelAgrees(s, other)
    {
      if other != id {
        assert ChannelAgrees(r, other) && r.live[other].fd != r.live[id].fd;
      }
    }
  }

  lemma RemoveChannelAgrees<Id>(r: Registry<Id>, id: Id)
    requires Agrees(r) && id in r.live
    ensures var s := RemoveChannel(r, id);
            && Agrees(s) && s.live.Keys == r.live.Keys
            && s.live[id] == r.live[id].(index := New)
            && (forall other :: other in r.live && other != id ==> s.live[other] == r.live[other])
  {
    var s := RemoveChannel(r, id);
    assert ChannelAgrees(r, id);
    forall other | other in s.live
      ensures ChannelAgrees(s, other)
    {
      assert ChannelAgrees(r, other);
    }
  }

  /** What can happen to the channels of one loop. */
  datatype Event<Id> =
    | Open(id: Id, fd: int)              // a Channel is constructed on an fd that no channel uses
    | Change(id: Id, events: Mask)       // enableReading ... disableAll
    | Remove(id: Id)
    | Close(id: Id)                      // it is destroyed and its fd closed

  ghost predicate Enabled<Id>(r: Registry<Id>, e: Event<Id>) {
    match e
    case Open(id, fd) => id !in r.live && forall other :: other in r.live ==> r.live[other].fd != fd
    case Change(id, _) => id in r.live
    case Remove(id) => id in r.live
    case Close(id) => id in r.live && r.live[id].index == New
  }

  ghost function Apply<Id>(r: Registry<Id>, e: Event<Id>): Registry<Id>
    requires Enabled(r, e)
  {
    match e
    case Open(id, fd) => r.(live := r.live[id := ChannelState(fd, NONE_EVENT, New)])
    case Change(id, events) => SetEvents(r, id, events)
    case Remove(id) => RemoveChannel(r, id)
    case Close(id) => r.(live := r.live - {id})
  }

  ghost predicate IsRun<Id>(rs: seq<Registry<Id>>, es: seq<Event<Id>>) {
    && |rs| == |es| + 1
    && rs[0] == Registry(map[], map[], map[], 0)
    && forall i :: 0 <= i < |es| ==> Enabled(rs[i], es[i]) && rs[i + 1] == Apply(rs[i], es[i])
  }

  lemma ApplyAgrees<Id>(r: Registry<Id>, e: Event<Id>)
    requires Agrees(r) && Enabled(r, e)
    ensures Agrees(Apply(r, e))
  {
    match e
    case Change(id, events) => SetEventsAgrees(r, id, events);
    case Remove(id) => RemoveChannelAgrees(r, id);
    case Open(id, fd) =>
      var s := Apply(r, e);
      forall other | other in s.live
        ensures ChannelAgrees(s, other)
      {
        assert other != id ==> ChannelAgrees(r, other);
      }
    case Close(id) =>
      var s := Apply(r, e);
      assert ChannelAgrees(r, id);
      forall other | other in s.live
        ensures ChannelAgrees(s, other)
      {
        assert ChannelAgrees(r, other);
      }
  }

  /** On every run, after every step, the three records agree and no epoll_ctl call was refused. */
  lemma {:induction false} RunAgrees<Id>(rs: seq<Registry<Id>>, es: seq<Event<Id>>, i: nat)
    requires IsRun(rs, es) && i <= |es|
    ensures Agrees(rs[i])
  {
    if i > 0 {
      RunAgrees(rs, es, i - 1);
      ApplyAgrees(rs[i - 1], es[i - 1]);
    }
  }

  /**
   Why distinct fds matter: a second channel on an fd that is already watched is refused by the
   kernel, though its index says it was added, and the poller forgets the first one.
  */
  lemma SharedFdIsRefused<Id>(r: Registry<Id>, first: Id, second: Id, events: Mask)
    requires Agrees(r) && first in r.live && second !in r.live && r.live[first].index == Added
    ensures var shared := r.(live := r.live[second := ChannelState(r.live[first].fd, NONE_EVENT, New)]);
            var s := SetEvents(shared, second, events);
            s.refused == 1 && s.live[second].index == Added && !Watches(s, second) && !HasChannel(s, first)
  {
    assert ChannelAgrees(r, first);
  }
}
