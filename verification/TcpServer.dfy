/** The server object of TcpServer.cpp, together with the queues of the loops it hands connections to. */
module TcpServers {
  import opened Ownership
  import Teardown
  import C = Connections

  class TcpServer {
    var nextConnId: nat
    var connections: set<Id>
    var loopOf: map<Id, LoopId>
    var conns: map<Id, C.Conn>
    var queues: Queues
    ghost var open: bool
    ghost var lingering: set<(LoopId, Id)>
    ghost var closing: set<Id>
    ghost var kept: set<Id>
    ghost var due: set<Id>
    ghost var letGo: set<Id>
    ghost var ended: map<Id, nat>

    ghost function View(): Server
      reads this
    {
      Server(open, nextConnId, connections, loopOf, conns, queues, lingering, closing, kept, due, letGo, ended)
    }

    ghost predicate Valid()
      reads this
    {
      Inv(View())
    }

    constructor ()
      ensures Valid() && View() == Start()
    {
      nextConnId, connections, loopOf, conns, queues := 1, {}, map[], map[], map[];
      open, lingering, closing, kept, due, letGo, ended := true, {}, {}, {}, {}, {}, map[];
    }

    /** Queues a functor on a loop. */
    method QueueInLoop(l: LoopId, t: Task)
      modifies this`queues
      ensures View() == old(View()).Queued(l, t)
      ensures At(queues, l) == old(At(queues, l)) + [t]
      ensures forall m :: m != l ==> At(queues, m) == old(At(queues, m))
    {
      queues := Appended(queues, l, t);
    }

    /**
     The new connection is new to the server, held by its map, and up at once on the base loop; on any
     other it is connecting, and nothing but its connectEstablished has been queued anywhere.
    */
    method NewConnection(io: LoopId, fd: int, opts: C.Options) returns (id: Id)
      requires Valid() && Enabled(View(), Accept(io, fd, opts))
      modifies this
      ensures Valid() && View() == Apply(old(View()), Accept(io, fd, opts))
      ensures Welcomed(old(View()), View(), id, io, fd)
    {
      ghost var before := View();
      id := Make(io, fd, opts);
      if io == BASE {
        conns := conns[id := C.ConnectEstablished(conns[id])];
      } else {
        QueueInLoop(io, Establish(id));
      }
      ApplyInv(before, Accept(io, fd, opts));
      NewIsWelcomed(before, io, fd, opts);
    }

    /** A fresh connection under the next number, named by the map. */
    method Make(io: LoopId, fd: int, opts: C.Options) returns (id: Id)
      modifies this`nextConnId, this`connections, this`loopOf, this`conns, this`ended
      ensures id == old(nextConnId) && View() == Made(old(View()), io, fd, opts)
    {
      id := nextConnId;
      nextConnId := nextConnId + 1;
      conns := conns[id := C.Fresh(fd, opts)];
      ended := ended[id := 0];
      loopOf := loopOf[id := io];
      connections := connections + {id};
    }

    /**
     The close callback of a connection that has closed. On the base loop the map forgets it and its
     connectDestroyed is queued there; on any other its removal is queued on the base loop, and the map goes
     on naming it. It is held either way, and the server is in order.
    */
    method RemoveConnection(id: Id)
      requires Valid() && Enabled(View(), CallBack(id))
      modifies this`connections, this`queues, this`closing
      ensures Valid() && View() == Apply(old(View()), CallBack(id))
      ensures OnItsWayOut(old(View()), View(), id)
    {
      ghost var before := View();
      closing := closing - {id};
      if loopOf[id] == BASE {
        RemoveConnectionInLoop(id);
      } else {
        QueueInLoop(BASE, Remove(id));
      }
      assert View() == Apply(before, CallBack(id));
      ApplyInv(before, CallBack(id));
      CalledIsOnItsWayOut(before, id);
    }

    /**
     The map no longer names the connection, if it did, and nothing else has changed but that one more
     connectDestroyed waits for it, last in the queue of its own loop.
    */
    method RemoveConnectionInLoop(id: Id)
      requires id in loopOf
      modifies this`connections, this`queues
      ensures View() == Ownership.RemoveConnectionInLoop(old(View()), id)
      ensures id !in connections && (forall x :: x != id ==> (x in connections <==> x in old(connections)))
      ensures At(queues, loopOf[id]) == old(At(queues, loopOf[id])) + [Destroy(id)]
      ensures forall l :: l != loopOf[id] ==> At(queues, l) == old(At(queues, l))
    {
      connections := connections - {id};
      QueueInLoop(loopOf[id], Destroy(id));
    }

    /**
     A loop runs the functor at the head of its queue. connectEstablished finds a connecting connection
     and connectDestroyed an established one; a removal has queued a connectDestroyed and let go of the
     name; and the server is in order.
    */
    method RunHead(l: LoopId) returns (t: Task)
      requires Valid() && At(queues, l) != []
      modifies this
      ensures Valid() && t == old(At(queues, l))[0] && Enabled(old(View()), Ownership.RunHead(l))
      ensures View() == Apply(old(View()), Ownership.RunHead(l))
      ensures Ran(old(View()), View(), t)
    {
      ghost var before := View();
      t := At(queues, l)[0];
      RunHeadNear(before, l);
      queues := Popped(queues, l);
      lingering := lingering + {(l, t.id)};
      Perform(t);
      HeadRan(before, l);
    }

    /** The functor itself. */
    method Perform(t: Task)
      requires Knows(View(), t.id)
      modifies this`connections, this`conns, this`queues, this`ended
      ensures View() == RunTask(old(View()), t)
    {
      match t
      case Establish(id) =>
        conns := conns[id := C.ConnectEstablished(conns[id])];
      case Remove(id) =>
        RemoveConnectionInLoop(id);
      case Destroy(id) =>
        conns := conns[id := C.ConnectDestroyed(conns[id])];
        ended := ended[id := ended[id] + 1];
    }

    /** The loop drops its batch, and with it its hold on a connection. */
    ghost method Release(l: LoopId, id: Id)
      requires Valid() && (l, id) in lingering
      modifies this`lingering
      ensures Valid() && View() == Apply(old(View()), Ownership.Release(l, id))
    {
      ReleaseInv(View(), l, id);
      lingering := lingering - {(l, id)};
    }

    /** One round of the destructor's loop. */
    method LetGo(id: Id, here: bool)
      requires Knows(View(), id)
      modifies this`connections, this`conns, this`queues, this`letGo, this`ended
      ensures View() == Ownership.LetGo(old(View()), id, here)
    {
      connections := connections - {id};
      letGo := letGo + {id};
      if loopOf[id] == BASE && here {
        conns := conns[id := C.ConnectDestroyed(conns[id])];
        ended := ended[id := ended[id] + 1];
      } else {
        QueueInLoop(loopOf[id], Destroy(id));
      }
    }

    /**
     ~TcpServer, on the base loop's thread or on none of a loop: lets go of every connection of the map, in
     whatever order the map has them. Whatever is not destroyed by then has a connectDestroyed waiting.
    */
    method Destruct(here: bool) returns (ghost order: seq<Id>)
      requires Valid() && open
      modifies this
      ensures Enabled(old(View()), Ownership.Destruct(order, here))
      ensures View() == Apply(old(View()), Ownership.Destruct(order, here)) && Valid()
      ensures connections == {} && Served(View())
    {
      ghost var before := View();
      open := false;
      order := LetGoEach(before, here);
      DestructInv(before, order, here);
      AllServed(View());
    }

    /** The destructor's loop. */
    method LetGoEach(ghost before: Server, here: bool) returns (ghost order: seq<Id>)
      requires MapInv(before) && View() == before.(open := false)
      modifies this`connections, this`conns, this`queues, this`letGo, this`ended
      ensures Known(before, order) && View() == LetGoAll(before.(open := false), order, here)
      ensures Listed(order, before.connections, {}) && connections == {}
    {
      ghost var shut := View();
      order := [];
      while connections != {}
        invariant Known(shut, order) && View() == LetGoAll(shut, order, here)
        invariant Listed(order, before.connections, connections) && AllKnown(View(), before)
        decreases connections
      {
        var id := LetGoNext(before, order, here);
        order := order + [id];
      }
    }

    /** One round of it, for a connection that the map still names. */
    method LetGoNext(ghost before: Server, ghost order: seq<Id>, here: bool) returns (id: Id)
      requires MapInv(before) && Known(before.(open := false), order)
      requires View() == LetGoAll(before.(open := false), order, here)
      requires Listed(order, before.connections, connections) && AllKnown(View(), before) && connections != {}
      modifies this`connections, this`conns, this`queues, this`letGo, this`ended
      ensures id in old(connections) && connections == old(connections) - {id}
      ensures Known(before.(open := false), order + [id])
      ensures View() == LetGoAll(before.(open := false), order + [id], here)
      ensures Listed(order + [id], before.connections, connections) && AllKnown(View(), before)
    {
      id :| id in connections;
      OneMore(before, before.(open := false), order, View(), id, here);
      LetGo(id, here);
    }
  }

  /** The connections of before are those of s, and each is known. */
  ghost predicate AllKnown(s: Server, before: Server) {
    s.connections <= s.loopOf.Keys && s.loopOf.Keys == s.conns.Keys == s.ended.Keys == before.conns.Keys
  }

  /** d has one connection more than s: named, held, and on its way to being up. */
  ghost predicate Welcomed(s: Server, d: Server, id: Id, io: LoopId, fd: int) {
    && id !in s.conns && Knows(d, id) && d.conns[id].channel.fd == fd && d.loopOf[id] == io
    && d.connections == s.connections + {id} && d.conns.Keys == s.conns.Keys + {id} && Held(d, id)
    && (forall x :: x in s.conns ==> d.conns[x] == s.conns[x])
    && d.conns[id].state == (if io == BASE then C.Connected else C.Connecting)
    && (forall l :: d.Queue(l) == if l == io && io != BASE then s.Queue(l) + [Establish(id)] else s.Queue(l))
  }

  lemma NewIsWelcomed(s: Server, io: LoopId, fd: int, opts: C.Options)
    requires MapInv(s)
    ensures Welcomed(s, NewConnection(s, io, fd, opts), s.nextConnId, io, fd)
  {
    NewQueues(s, io, fd, opts);
    NewMaps(s, io, fd, opts);
  }

  lemma NewMaps(s: Server, io: LoopId, fd: int, opts: C.Options)
    requires MapInv(s)
    ensures var id, d := s.nextConnId, NewConnection(s, io, fd, opts);
            && id !in s.conns && Knows(d, id) && d.loopOf[id] == io && d.connections == s.connections + {id}
            && d.conns == s.conns[id := if io == BASE then C.ConnectEstablished(C.Fresh(fd, opts)) else C.Fresh(fd, opts)]
  {
  }

  lemma NewQueues(s: Server, io: LoopId, fd: int, opts: C.Options)
    ensures forall l :: NewConnection(s, io, fd, opts).Queue(l)
                        == if l == io && io != BASE then s.Queue(l) + [Establish(s.nextConnId)] else s.Queue(l)
  {
  }

  /** d has taken leave of a connection that s saw closed: it is held, by the one task that is new. */
  ghost predicate OnItsWayOut(s: Server, d: Server, id: Id) {
    && Knows(s, id) && Knows(d, id) && d.conns == s.conns && Held(d, id)
    && C.Closed in d.conns[id].notes
    && d.connections == (if s.loopOf[id] == BASE then s.connections - {id} else s.connections)
    && d.Queue(BASE) == s.Queue(BASE) + [if s.loopOf[id] == BASE then Destroy(id) else Remove(id)]
    && (forall l :: l != BASE ==> d.Queue(l) == s.Queue(l))
  }

  lemma CalledIsOnItsWayOut(s: Server, id: Id)
    requires Inv(s) && Enabled(s, CallBack(id))
    ensures OnItsWayOut(s, Apply(s, CallBack(id)), id)
  {
    assert Sound(s, id) && SeatOf(s, id).closings > 0;
    RemovalQueues(s.(closing := s.closing - {id}), id);
    assert forall l :: s.(closing := s.closing - {id}).Queue(l) == s.Queue(l);
  }

  lemma RemovalQueues(s: Server, id: Id)
    requires id in s.loopOf
    ensures var t, d := if s.loopOf[id] == BASE then Destroy(id) else Remove(id), RemoveConnection(s, id);
            && d.Queue(BASE) == s.Queue(BASE) + [t] && (forall l :: l != BASE ==> d.Queue(l) == s.Queue(l))
            && d.conns == s.conns && d.loopOf == s.loopOf && d.ended == s.ended && Held(d, id)
            && d.connections == (if s.loopOf[id] == BASE then s.connections - {id} else s.connections)
  {
    var t, d := if s.loopOf[id] == BASE then Destroy(id) else Remove(id), RemoveConnection(s, id);
    assert t in d.Queue(BASE) && t.id == id;
  }

  /** What running a functor has come to. */
  ghost predicate Ran(s: Server, d: Server, t: Task) {
    && Knows(s, t.id) && Knows(d, t.id)
    && (t.Establish? ==> s.conns[t.id].state == C.Connecting && d.conns[t.id].state == C.Connected)
    && (t.Destroy? ==> s.conns[t.id].state != C.Connecting && d.conns[t.id].destroyed && d.ended[t.id] == s.ended[t.id] + 1)
    && (t.Remove? ==> t.id !in d.connections && Destroy(t.id) in d.Queue(d.loopOf[t.id]) && d.conns == s.conns)
  }

  lemma HeadRan(s: Server, l: LoopId)
    requires Inv(s) && s.Queue(l) != []
    ensures Enabled(s, RunHead(l)) && Ran(s, Apply(s, RunHead(l)), s.Queue(l)[0])
  {
    Teardown.HeadInOrder(s, l);
  }

  /** Every connection of a server that is gone is destroyed, or about to be. */
  ghost predicate Served(s: Server) {
    forall id :: id in s.conns ==> Knows(s, id) && (s.conns[id].destroyed || Destroy(id) in s.Queue(s.loopOf[id]))
  }

  lemma AllServed(s: Server)
    requires Inv(s) && s.connections == {}
    ensures Served(s)
  {
    forall id | id in s.conns
      ensures Knows(s, id) && (s.conns[id].destroyed || Destroy(id) in s.Queue(s.loopOf[id]))
    {
      assert Sound(s, id);
      Teardown.Waiting(s, id);
    }
  }

  ghost predicate Known(s: Server, order: seq<Id>) {
    forall id :: id in order ==> Knows(s, id)
  }

  lemma OneMore(before: Server, shut: Server, order: seq<Id>, now: Server, id: Id, here: bool)
    requires shut == before.(open := false) && before.connections <= before.conns.Keys
    requires before.loopOf.Keys == before.conns.Keys == before.ended.Keys
    requires Known(shut, order) && now == LetGoAll(shut, order, here) && id in now.connections && Knows(now, id) && Knows(shut, id)
    requires Listed(order, before.connections, now.connections)
    ensures Known(shut, order + [id]) && LetGo(now, id, here) == LetGoAll(shut, order + [id], here)
    ensures Listed(order + [id], before.connections, LetGo(now, id, here).connections)
  {
    LetGoAllSnoc(shut, order, id, here);
    NoDupSnoc(order, id);
  }

  lemma NoDupSnoc<X>(q: seq<X>, x: X)
    requires NoDup(q) && x !in q
    ensures NoDup(q + [x]) && forall y :: y in q + [x] <==> y in q || y == x
  {
  }

  /** order names, once each, exactly those of all that are not left. */
  ghost predicate Listed(order: seq<Id>, all: set<Id>, left: set<Id>) {
    && left <= all && NoDup(order)
    && forall id :: id in order <==> id in all && id !in left
  }

  lemma {:induction false} LetGoAllSnoc(s: Server, order: seq<Id>, id: Id, here: bool)
    requires forall x :: x in order + [id] ==> Knows(s, x)
    ensures forall x :: x in order ==> Knows(s, x)
    ensures Knows(LetGoAll(s, order, here), id)
    ensures LetGoAll(s, order + [id], here) == LetGo(LetGoAll(s, order, here), id, here)
    decreases |order|
  {
    assert forall x :: x in order ==> x in order + [id];
    if order == [] {
      assert ([] + [id])[1..] == [];
    } else {
      LetGoKnows(s, order[0], here);
      assert (order + [id])[1..] == order[1..] + [id];
      LetGoAllSnoc(LetGo(s, order[0], here), order[1..], id, here);
    }
  }
}
