/** The promises of Ownership.dfy over whole runs, and exactly when a server may be destructed. */
module Teardown {
  import opened Bytes
  import ChannelStates
  import C = Connections
  import T = ConnectionTheorems
  import R = ConnectionRuns
  import opened Ownership

  /** How often a connection's end was asked for: by each of its closes, and by the destructor. */
  function EndsAsked(s: Server, id: Id): nat
    requires Knows(s, id)
  {
    C.Count(s.conns[id].notes, C.Closed) + if id in s.letGo then 1 else 0
  }

  lemma RunSound(ss: seq<Server>, es: seq<Event>, i: nat, id: Id)
    requires IsRun(ss, es) && i <= |es| && id in ss[i].conns
    ensures Inv(ss[i]) && Knows(ss[i], id) && Life(id, SeatOf(ss[i], id)) && T.Inv(ss[i].conns[id])
  {
    RunInv(ss, es, i);
    assert Sound(ss[i], id);
    LivedInv(ss[i].conns[id]);
  }

  lemma Waiting(s: Server, id: Id)
    requires MapInv(s) && id in s.conns && Life(id, SeatOf(s, id))
    ensures Remove(id) in s.Queue(BASE) <==> SeatOf(s, id).removes > 0
    ensures Destroy(id) in s.Queue(s.loopOf[id]) <==> SeatOf(s, id).Destroys() > 0
    ensures Establish(id) in s.Queue(s.loopOf[id]) <==> SeatOf(s, id).connecting
  {
    var x := SeatOf(s, id);
    CallsAre(s.Queue(BASE), id);
    CallsAre(s.Queue(s.loopOf[id]), id);
    if x.Destroys() > 0 {
      assert x.calls[|x.calls| - 1] == Destroy(id);
    }
    if x.connecting {
      assert x.calls[0] == Establish(id);
    }
  }

  // ----- Who holds a connection -----

  /**
   Every time its end is asked for leads to one connectDestroyed, through one close callback and, if the
   connection lives on another loop, one removal; on every run, however closes, loops and the destructor
   overlap, none of these is lost or made twice.
  */
  lemma EveryEndIsServed(ss: seq<Server>, es: seq<Event>, i: nat, id: Id)
    requires IsRun(ss, es) && i <= |es| && id in ss[i].conns
    ensures var s := ss[i];
            && Knows(s, id)
            && EndsAsked(s, id) == (if id in s.closing then 1 else 0) + Removes(s.Queue(BASE), id) + s.ended[id]
                                   + |Calls(s.Queue(s.loopOf[id]), id)| - (if s.conns[id].state == C.Connecting then 1 else 0)
            && (s.conns[id].destroyed <==> s.ended[id] > 0)
  {
    RunSound(ss, es, i, id);
    LifeSays(ss[i], id);
  }

  lemma LifeSays(s: Server, id: Id)
    requires Knows(s, id) && Life(id, SeatOf(s, id))
    ensures EndsAsked(s, id) == (if id in s.closing then 1 else 0) + Removes(s.Queue(BASE), id) + s.ended[id]
                                + |Calls(s.Queue(s.loopOf[id]), id)| - (if s.conns[id].state == C.Connecting then 1 else 0)
    ensures s.conns[id].destroyed <==> s.ended[id] > 0
  {
  }

  /** Its channel is still in the poller, and nobody holds the connection any more. */
  ghost predicate Orphaned(s: Server, id: Id)
    requires Knows(s, id)
  {
    !Held(s, id) && s.conns[id].channel.index != ChannelStates.New
  }

  /** A send or a drain behind connectDestroyed puts the channel back into the poller. */
  predicate Revives(s: Server, e: Event, id: Id) {
    e.Happen? && e.id == id && id in s.conns && C.Enabled(s.conns[id], e.e) && R.Revives(s.conns[id], e.e)
  }

  /** connectDestroyed runs. */
  predicate Ends(s: Server, e: Event, id: Id) {
    e.RunHead? && s.Queue(e.l) != [] && s.Queue(e.l)[0] == Destroy(id)
  }

  /** Some send or drain put the channel back after connectDestroyed, which has not run again since. */
  ghost predicate RevivedSince(ss: seq<Server>, es: seq<Event>, i: nat, id: Id)
    requires |ss| == |es| + 1 && i <= |es|
  {
    exists k :: 0 <= k < i && Revives(ss[k], es[k], id) && NotEndedSince(ss, es, k + 1, i, id)
  }

  ghost predicate NotEndedSince(ss: seq<Server>, es: seq<Event>, k: nat, i: nat, id: Id)
    requires |ss| == |es| + 1 && i <= |es|
  {
    forall m :: k <= m < i ==> !Ends(ss[m], es[m], id)
  }

  lemma NotEndedStep(ss: seq<Server>, es: seq<Event>, k: nat, i: nat, id: Id)
    requires |ss| == |es| + 1 && k < i <= |es|
    ensures NotEndedSince(ss, es, k, i, id) <==> NotEndedSince(ss, es, k, i - 1, id) && !Ends(ss[i - 1], es[i - 1], id)
  {
  }

  lemma RevivedSinceStep(ss: seq<Server>, es: seq<Event>, i: nat, id: Id)
    requires |ss| == |es| + 1 && 0 < i <= |es|
    ensures RevivedSince(ss, es, i, id)
            <==> !Ends(ss[i - 1], es[i - 1], id) && (RevivedSince(ss, es, i - 1, id) || Revives(ss[i - 1], es[i - 1], id))
  {
    if RevivedSince(ss, es, i, id) {
      var k :| 0 <= k < i && Revives(ss[k], es[k], id) && NotEndedSince(ss, es, k + 1, i, id);
      if k < i - 1 {
        NotEndedStep(ss, es, k + 1, i, id);
      }
    }
    if !Ends(ss[i - 1], es[i - 1], id) && RevivedSince(ss, es, i - 1, id) {
      var k :| 0 <= k < i - 1 && Revives(ss[k], es[k], id) && NotEndedSince(ss, es, k + 1, i - 1, id);
      NotEndedStep(ss, es, k + 1, i, id);
    }
    if Revives(ss[i - 1], es[i - 1], id) {
      assert NotEndedSince(ss, es, i, i, id);
    }
  }

  lemma HappenIndex(s: Server, x: Id, ce: C.Event, id: Id)
    requires Inv(s) && Enabled(s, Happen(x, ce)) && id in s.conns && Apply(s, Happen(x, ce)).conns[id].destroyed
    ensures Apply(s, Happen(x, ce)).conns[id].channel.index != ChannelStates.New
            <==> s.conns[id].destroyed
                 && (s.conns[id].channel.index != ChannelStates.New || Revives(s, Happen(x, ce), id))
  {
    HappenConns(s, x, ce);
    if x == id {
      OwnIndex(s, ce, id);
    }
  }

  lemma OwnIndex(s: Server, ce: C.Event, id: Id)
    requires Inv(s) && Enabled(s, Happen(id, ce)) && C.Apply(s.conns[id], ce).destroyed
    ensures C.Apply(s.conns[id], ce).channel.index != ChannelStates.New
            <==> s.conns[id].destroyed
                 && (s.conns[id].channel.index != ChannelStates.New || Revives(s, Happen(id, ce), id))
  {
    assert Sound(s, id);
    LivedInv(s.conns[id]);
    T.StepShape(s.conns[id], ce);
    R.RevivedStep(s.conns[id], ce, C.Apply(s.conns[id], ce));
  }

  lemma HappenConns(s: Server, x: Id, ce: C.Event)
    requires Enabled(s, Happen(x, ce))
    ensures Apply(s, Happen(x, ce)).conns == s.conns[x := C.Apply(s.conns[x], ce)]
  {
  }

  lemma HeadIndex(s: Server, l: LoopId, id: Id)
    requires Inv(s) && Enabled(s, RunHead(l)) && id in s.conns && Apply(s, RunHead(l)).conns[id].destroyed
    ensures Apply(s, RunHead(l)).conns[id].channel.index != ChannelStates.New
            <==> !Ends(s, RunHead(l), id) && s.conns[id].destroyed && s.conns[id].channel.index != ChannelStates.New
  {
    HeadInOrder(s, l);
    HeadConns(s, l);
    assert Sound(s, id);
    LivedInv(s.conns[id]);
  }

  lemma HeadConns(s: Server, l: LoopId)
    requires Enabled(s, RunHead(l))
    ensures var t := s.Queue(l)[0];
            Apply(s, RunHead(l)).conns
            == match t
               case Establish(id) => s.conns[id := C.ConnectEstablished(s.conns[id])]
               case Remove(id) => s.conns
               case Destroy(id) => s.conns[id := C.ConnectDestroyed(s.conns[id])]
  {
  }

  /** One step, as far as the index of a destroyed connection's channel goes. */
  lemma IndexStep(s: Server, e: Event, id: Id)
    requires Inv(s) && Enabled(s, e) && id in s.conns && id in Apply(s, e).conns && Apply(s, e).conns[id].destroyed
    ensures Apply(s, e).conns[id].channel.index != ChannelStates.New
            <==> !Ends(s, e, id) && s.conns[id].destroyed
                 && (s.conns[id].channel.index != ChannelStates.New || Revives(s, e, id))
  {
    match e
    case Happen(x, ce) => HappenIndex(s, x, ce, id);
    case RunHead(l) => HeadIndex(s, l, id);
    case Destruct(order, here) => DestructIndex(s, order, here, id);
    case _ => SameConn(s, e, id);
  }

  lemma DestructIndex(s: Server, order: seq<Id>, here: bool, id: Id)
    requires Inv(s) && Enabled(s, Destruct(order, here)) && id in s.conns
    ensures var d := Apply(s, Destruct(order, here));
            && id in d.conns && (s.conns[id].destroyed ==> d.conns[id].destroyed)
            && (d.conns[id].destroyed ==>
                  (d.conns[id].channel.index != ChannelStates.New
                   <==> s.conns[id].destroyed && s.conns[id].channel.index != ChannelStates.New))
  {
    DestructOutcome(s, order, here);
  }

  lemma SameConn(s: Server, e: Event, id: Id)
    requires Inv(s) && Enabled(s, e) && !e.Happen? && !e.RunHead? && !e.Destruct? && id in s.conns
    ensures id in Apply(s, e).conns && Apply(s, e).conns[id] == s.conns[id]
  {
    if e.Accept? {
      assert id < s.nextConnId;
    } else {
      SameConns(s, e);
    }
  }

  lemma SameConns(s: Server, e: Event)
    requires Enabled(s, e) && (e.CallBack? || e.Report? || e.Keep? || e.Drop? || e.Release?)
    ensures Apply(s, e).conns == s.conns
  {
  }

  lemma {:induction false} NewUnlessRevived(ss: seq<Server>, es: seq<Event>, i: nat, id: Id)
    requires IsRun(ss, es) && i <= |es| && id in ss[i].conns
    ensures ss[i].conns[id].destroyed ==>
              (ss[i].conns[id].channel.index != ChannelStates.New <==> RevivedSince(ss, es, i, id))
    ensures !ss[i].conns[id].destroyed ==> !RevivedSince(ss, es, i, id)
  {
    if i > 0 {
      var s, e := ss[i - 1], es[i - 1];
      assert StepAt(ss, es, i - 1);
      RunInv(ss, es, i - 1);
      RevivedSinceStep(ss, es, i, id);
      if id in s.conns {
        NewUnlessRevived(ss, es, i - 1, id);
        DestroyedStays(s, e, id);
        if ss[i].conns[id].destroyed {
          IndexStep(s, e, id);
        }
      } else {
        NotYetRevived(ss, es, i - 1, id);
        NewcomersLive(s, e, id);
      }
    }
  }

  lemma NewcomersLive(s: Server, e: Event, id: Id)
    requires Inv(s) && Enabled(s, e) && id !in s.conns && id in Apply(s, e).conns
    ensures !Apply(s, e).conns[id].destroyed
  {
    match e
    case Destruct(order, here) => DestructOutcome(s, order, here);
    case RunHead(l) => HeadConns(s, l);
    case Accept(_, _, _) =>
    case Happen(_, _) =>
    case _ => SameConns(s, e);
  }

  lemma DestroyedStays(s: Server, e: Event, id: Id)
    requires Inv(s) && Enabled(s, e) && id in s.conns
    ensures id in Apply(s, e).conns
    ensures s.conns[id].destroyed ==> Apply(s, e).conns[id].destroyed
    ensures Revives(s, e, id) ==> s.conns[id].destroyed
  {
    match e
    case Happen(x, ce) => R.StepFrame(s.conns[x], ce);
    case RunHead(l) => HeadKeeps(s, l, id);
    case Destruct(order, here) => DestructIndex(s, order, here, id);
    case _ => SameConn(s, e, id);
  }

  lemma HeadKeeps(s: Server, l: LoopId, id: Id)
    requires Inv(s) && Enabled(s, RunHead(l)) && id in s.conns
    ensures id in Apply(s, RunHead(l)).conns
    ensures s.conns[id].destroyed ==> Apply(s, RunHead(l)).conns[id].destroyed
  {
    HeadConns(s, l);
  }

  lemma {:induction false} NotYetRevived(ss: seq<Server>, es: seq<Event>, i: nat, id: Id)
    requires IsRun(ss, es) && i <= |es| && id !in ss[i].conns
    ensures !RevivedSince(ss, es, i, id)
  {
    if i > 0 {
      assert StepAt(ss, es, i - 1);
      RunInv(ss, es, i - 1);
      if id in ss[i - 1].conns {
        DestroyedStays(ss[i - 1], es[i - 1], id);
      }
      NotYetRevived(ss, es, i - 1, id);
      RevivedSinceStep(ss, es, i, id);
    }
  }

  /**
   Does a connection's channel leave the poller before its last reference is dropped? Until connectDestroyed
   has run, the server's map names the connection or its connectDestroyed is queued; afterwards the channel is
   out of the poller, and so it is when nobody holds the connection any more, if and only if no send and no
   drain that ran after connectDestroyed has put it back. A connection outlives its last connectDestroyed only
   in the batch that ran it, by what the application, a callback or a dispatch keeps, or because its end was
   asked for again: none leaks.
  */
  lemma OwnershipAcrossTeardown(ss: seq<Server>, es: seq<Event>, i: nat, id: Id)
    requires IsRun(ss, es) && i <= |es| && id in ss[i].conns
    ensures var s, c := ss[i], ss[i].conns[id];
            && Knows(s, id)
            && (!c.destroyed ==> id in s.connections || Destroy(id) in s.Queue(s.loopOf[id]))
            && (c.destroyed ==> (c.channel.index != ChannelStates.New <==> RevivedSince(ss, es, i, id)))
            && (!Held(s, id) ==> (Orphaned(s, id) <==> RevivedSince(ss, es, i, id)))
            && (Held(s, id) <==> !c.destroyed || EndsAsked(s, id) > s.ended[id] || id in s.kept
                                 || SeatOf(s, id).inBatch || SeatOf(s, id).atBase)
  {
    RunSound(ss, es, i, id);
    Waiting(ss[i], id);
    HeldBySeat(ss[i], id);
    NewUnlessRevived(ss, es, i, id);
  }

  /** Two channels that are known to a poller, or whose connections are held, share an fd only over an orphan. */
  lemma HeldFdsAreDistinct(ss: seq<Server>, es: seq<Event>, i: nat, a: Id, b: Id)
    requires IsRun(ss, es) && i <= |es| && a in ss[i].conns && b in ss[i].conns && a != b
    requires Held(ss[i], a) || ss[i].conns[a].channel.index != ChannelStates.New
    requires Held(ss[i], b) || ss[i].conns[b].channel.index != ChannelStates.New
    ensures Knows(ss[i], a) && Knows(ss[i], b)
    ensures ss[i].conns[a].channel.fd == ss[i].conns[b].channel.fd ==> Orphaned(ss[i], a) || Orphaned(ss[i], b)
  {
    RunInv(ss, es, i);
    HeldBySeat(ss[i], a);
    HeldBySeat(ss[i], b);
    assert FdsApart(ss[i], a, b);
  }

  /**
   A connection that has closed and is not destroyed is on its way out: its close callback is about to be
   made or its removal is queued as long as the map names it, and after that its destruction. It is one of
   the three, and once, if and only if its end was asked for once: always while the server is open and no
   late shutdown reopened it.
  */
  lemma ClosedIsOnItsWayOut(ss: seq<Server>, es: seq<Event>, i: nat, id: Id)
    requires IsRun(ss, es) && i <= |es| && id in ss[i].conns
    requires C.Closed in ss[i].conns[id].notes && !ss[i].conns[id].destroyed
    ensures var s := ss[i];
            && Knows(s, id)
            && (id in s.connections ==> (id in s.closing || Remove(id) in s.Queue(BASE)) && Destroy(id) !in s.Queue(s.loopOf[id]))
            && (id !in s.connections ==> Destroy(id) in s.Queue(s.loopOf[id]))
            && ((if id in s.closing then 1 else 0) + Removes(s.Queue(BASE), id) + |Calls(s.Queue(s.loopOf[id]), id)| == 1
                <==> EndsAsked(s, id) == 1)
            && (s.open && !s.conns[id].late ==> EndsAsked(s, id) == 1)
  {
    RunSound(ss, es, i, id);
    Waiting(ss[i], id);
  }

  ghost predicate SameButRemoved(c: C.Conn, d: C.Conn) {
    d == c.(channel := c.channel.(index := ChannelStates.New))
  }

  /**
   Whatever order the loops take their work in, connectEstablished finds a connection that is connecting
   and connectDestroyed one that was established; a second connectDestroyed only removes the channel again.
   While the server is open and no late shutdown interferes, a removal finds a connection that is not
   destroyed in the map.
  */
  lemma TasksComeInOrder(ss: seq<Server>, es: seq<Event>, i: nat, l: LoopId)
    requires IsRun(ss, es) && i <= |es| && ss[i].Queue(l) != []
    ensures var s, t := ss[i], ss[i].Queue(l)[0];
            && Enabled(s, RunHead(l))
            && (t.Establish? ==> C.Enabled(s.conns[t.id], C.Event.Establish))
            && (t.Destroy? ==> C.Enabled(s.conns[t.id], C.Event.Destroy))
            && (t.Destroy? && s.conns[t.id].destroyed ==> SameButRemoved(s.conns[t.id], C.ConnectDestroyed(s.conns[t.id])))
            && (t.Remove? ==> C.Closed in s.conns[t.id].notes)
            && (t.Remove? && s.open && !s.conns[t.id].late && !s.conns[t.id].destroyed ==> t.id in s.connections)
  {
    RunInv(ss, es, i);
    HeadInOrder(ss[i], l);
  }

  lemma HeadInOrder(s: Server, l: LoopId)
    requires Inv(s) && s.Queue(l) != []
    ensures var t := s.Queue(l)[0];
            && Enabled(s, RunHead(l))
            && (t.Establish? ==> C.Enabled(s.conns[t.id], C.Event.Establish))
            && (t.Destroy? ==> C.Enabled(s.conns[t.id], C.Event.Destroy))
            && (t.Destroy? && s.conns[t.id].destroyed ==> SameButRemoved(s.conns[t.id], C.ConnectDestroyed(s.conns[t.id])))
            && (t.Remove? ==> C.Closed in s.conns[t.id].notes)
            && (t.Remove? && s.open && !s.conns[t.id].late && !s.conns[t.id].destroyed ==> t.id in s.connections)
  {
    var t := s.Queue(l)[0];
    HeadSeat(s, l);
    assert Sound(s, t.id);
    LivedInv(s.conns[t.id]);
    match t
    case Establish(_) => EstablishInv(s, l);
    case Remove(_) =>
    case Destroy(_) =>
      DestroyInv(s, l);
      DestroyStep(s.conns[t.id]);
  }

  /** After the server is gone every connection it ever had is destroyed, or about to be. */
  lemma DestructionReachesAll(ss: seq<Server>, es: seq<Event>, i: nat, id: Id)
    requires IsRun(ss, es) && i <= |es| && !ss[i].open && id in ss[i].conns
    ensures Knows(ss[i], id)
    ensures ss[i].conns[id].destroyed || Destroy(id) in ss[i].Queue(ss[i].loopOf[id])
  {
    RunSound(ss, es, i, id);
    Waiting(ss[i], id);
  }

  // ----- Orphans -----

  ghost predicate NoneOrphaned(s: Server)
    requires MapInv(s)
  {
    forall id :: id in s.conns ==> !Orphaned(s, id)
  }

  lemma UnmovedOrphan(s: Server, d: Server, id: Id)
    requires MapInv(s) && MapInv(d) && id in s.conns && id in d.conns && Unmoved(s, d, id)
    ensures Orphaned(d, id) <==> Orphaned(s, id)
  {
    HeldBySeat(s, id);
    HeldBySeat(d, id);
  }

  /** The steps that can take the last hold on a connection from it. */
  predicate LetsGo(e: Event) {
    e.Release? || e.Drop?
  }

  /** The connection a step is about still exists after it, but when a batch or the last pointer is dropped. */
  lemma ActorIsHeld(s: Server, e: Event)
    requires Inv(s) && Enabled(s, e) && !LetsGo(e) && !e.Destruct?
    ensures Knows(Apply(s, e), ActorOf(s, e)) && Held(Apply(s, e), ActorOf(s, e))
    ensures e.Accept? || Held(s, ActorOf(s, e))
  {
    StepNear(s, e);
    var d, id := Apply(s, e), ActorOf(s, e);
    match e
    case Happen(_, ce) => SteppedHeld(s, id, ce);
    case CallBack(_) =>
      var l, t := BASE, if s.loopOf[id] == BASE then Destroy(id) else Remove(id);
      assert t in d.Queue(l) && t.id == id;
    case RunHead(l) =>
      assert s.Queue(l)[0] in s.Queue(l);
      assert (l, id) in d.lingering;
    case Keep(_) => HeldBySeat(s, id);
    case _ =>
  }

  lemma SteppedHeld(s: Server, id: Id, e: C.Event)
    requires id in s.conns && C.Enabled(s.conns[id], e)
    ensures forall x :: Held(s, x) ==> Held(Stepped(s, id, e), x)
  {
    assert forall l :: Stepped(s, id, e).Queue(l) == s.Queue(l);
  }

  /** What is orphaned stays so; nothing becomes so but one whose last hold is dropped. */
  lemma OrphanStep(s: Server, e: Event, id: Id)
    requires Inv(s) && Enabled(s, e) && Inv(Apply(s, e)) && id in Apply(s, e).conns
    ensures id in s.conns && Orphaned(s, id) ==> Orphaned(Apply(s, e), id)
    ensures Orphaned(Apply(s, e), id) && !(id in s.conns && Orphaned(s, id)) ==>
              LetsGo(e) && ActorOf(s, e) == id && Held(s, id) && Apply(s, e).conns == s.conns
  {
    if e.Destruct? {
      DestructOrphans(s, e.order, e.here, id);
    } else {
      StepNear(s, e);
      if id != ActorOf(s, e) {
        assert Unmoved(s, Apply(s, e), id);
        UnmovedOrphan(s, Apply(s, e), id);
      } else if LetsGo(e) {
        LetsGoOf(s, e);
      } else {
        ActorIsHeld(s, e);
      }
    }
  }

  lemma DestructOrphans(s: Server, order: seq<Id>, here: bool, id: Id)
    requires Inv(s) && Enabled(s, Destruct(order, here)) && id in Apply(s, Destruct(order, here)).conns
    ensures id in s.conns && Knows(Apply(s, Destruct(order, here)), id)
    ensures Orphaned(Apply(s, Destruct(order, here)), id) <==> Orphaned(s, id)
  {
    var d := Apply(s, Destruct(order, here));
    DestructOutcome(s, order, here);
    assert Outcome(s, d, order, here, id);
    HeldBySeat(s, id);
    HeldBySeat(d, id);
    if EndedHere(s, order, here, id) {
      EndedIsNew(s.conns[id]);
    }
  }

  lemma EndedIsNew(c: C.Conn)
    ensures C.ConnectDestroyed(c).channel.index == ChannelStates.New
  {
  }

  lemma LetsGoOf(s: Server, e: Event)
    requires Inv(s) && Enabled(s, e) && LetsGo(e)
    ensures Held(s, ActorOf(s, e)) && Apply(s, e).conns == s.conns
  {
  }

  // ----- The server's own lifetime -----

  /** A step that runs code of the server object: a close callback, or a removal on the base loop. */
  ghost predicate CallsServer(s: Server, e: Event)
    requires Enabled(s, e)
  {
    match e
    case CallBack(_) => true
    case RunHead(l) => s.Queue(l)[0].Remove?
    case _ => false
  }

  ghost predicate Reaches(s: Server, es: seq<Event>, d: Server)
    decreases |es|
  {
    if es == [] then s == d else Enabled(s, es[0]) && Reaches(Apply(s, es[0]), es[1..], d)
  }

  /** Whatever happens from here on, none of it calls the server. */
  ghost predicate LeavesServerAlone(s: Server) {
    forall es, d, e :: Reaches(s, es, d) && Enabled(d, e) ==> !CallsServer(d, e)
  }

  ghost predicate NoRemovalWaits(s: Server) {
    forall t :: t in s.Queue(BASE) ==> !t.Remove?
  }

  /**
   A connection that exists may still close. One that only its own loop's batch holds cannot be polled any
   more: only the write of a queued send can close it, or a high-water callback that a queued send queues
   can give it a further hold.
  */
  ghost predicate MayStillClose(s: Server, id: Id)
    requires Knows(s, id)
  {
    || (SeatOf(s, id).Elsewhere() && R.MayClose(s.conns[id], id in s.due))
    || (SeatOf(s, id).inBatch && (R.MayFail(s.conns[id]) || R.MayOverflow(s.conns[id])))
  }

  ghost predicate NoneMayClose(s: Server)
    requires MapInv(s)
  {
    forall id {:trigger MayStillClose(s, id)} :: id in s.conns ==> !MayStillClose(s, id)
  }

  /** A gone server that is left alone: no close callback and no removal is to come, and nothing may close. */
  ghost predicate Quiet(s: Server) {
    Inv(s) && !s.open && s.closing == {} && NoRemovalWaits(s) && NoneMayClose(s)
  }

  /** Nothing calls it in one step, nor makes it possible. */
  lemma QuietStep(s: Server, e: Event)
    requires Quiet(s) && Enabled(s, e)
    ensures !CallsServer(s, e) && Quiet(Apply(s, e))
  {
    StepNear(s, e);
    NothingToReport(s, ActorOf(s, e));
    match e {
      case Happen(id, ce) => QuietHappen(s, id, ce);
      case RunHead(l) => QuietHead(s, l);
      case Keep(id) => QuietKeep(s, id);
      case Drop(_) => QuietDrop(s, e);
      case Release(_, _) => QuietDrop(s, e);
      case _ =>
    }
    OthersMayNotClose(s, Apply(s, e), ActorOf(s, e));
  }

  lemma OthersMayNotClose(s: Server, d: Server, id: Id)
    requires MapInv(s) && MapInv(d) && NoneMayClose(s) && Near(s, d, id) && id in s.conns && id in d.conns && !MayStillClose(d, id)
    ensures NoneMayClose(d)
  {
    forall other | other in d.conns
      ensures !MayStillClose(d, other)
    {
      if other != id {
        assert Unmoved(s, d, other) && !MayStillClose(s, other);
        assert SeatOf(d, other).due == SeatOf(s, other).due;
      }
    }
  }

  /** What a step of a quiet server comes to for the connection it is about. */
  ghost predicate StillQuiet(s: Server, d: Server, id: Id) {
    !d.open && d.closing == {} && NoRemovalWaits(d) && id in s.conns && Knows(d, id) && !MayStillClose(d, id)
  }

  lemma QuietDrop(s: Server, e: Event)
    requires Quiet(s) && Enabled(s, e) && LetsGo(e)
    ensures StillQuiet(s, Apply(s, e), ActorOf(s, e))
  {
    var d, id := Apply(s, e), ActorOf(s, e);
    assert id in s.conns && !MayStillClose(s, id);
    assert forall m :: d.Queue(m) == s.Queue(m);
  }

  lemma QuietKeep(s: Server, id: Id)
    requires Quiet(s) && Enabled(s, Keep(id))
    ensures StillQuiet(s, Apply(s, Keep(id)), id)
  {
    assert !MayStillClose(s, id);
    assert forall m :: Apply(s, Keep(id)).Queue(m) == s.Queue(m);
  }

  /** A channel that could be reported would be registered, and so could close. */
  lemma NothingToReport(s: Server, id: Id)
    requires Quiet(s)
    ensures !Enabled(s, Report(id))
  {
    if Knows(s, id) {
      HeldBySeat(s, id);
      assert !MayStillClose(s, id);
    }
  }

  lemma QuietHappen(s: Server, id: Id, ce: C.Event)
    requires Quiet(s) && Enabled(s, Happen(id, ce))
    ensures StillQuiet(s, Apply(s, Happen(id, ce)), id)
  {
    assert !MayStillClose(s, id) && Sound(s, id);
    HeldSeat(s, id, ce);
    LivedInv(s.conns[id]);
    HappenInv(s, id, ce);
    var c, d := s.conns[id], Stepped(s, id, ce);
    if SeatOf(s, id).Elsewhere() {
      R.ShutForGood(c, ce, id in s.due);
      if R.MayFail(d.conns[id]) || R.MayOverflow(d.conns[id]) {
        R.FailingCloses(d.conns[id]);
      }
    } else {
      R.ShutUntilPolled(c, ce);
    }
    assert forall m :: d.Queue(m) == s.Queue(m);
  }

  lemma QuietHead(s: Server, l: LoopId)
    requires Quiet(s) && Enabled(s, RunHead(l))
    ensures s.Queue(l)[0].Destroy? && StillQuiet(s, Apply(s, RunHead(l)), s.Queue(l)[0].id)
  {
    var t := s.Queue(l)[0];
    HeadSeat(s, l);
    HeadInOrder(s, l);
    assert t in s.Queue(l) && Sound(s, t.id) && !MayStillClose(s, t.id);
    assert !R.MayClose(s.conns[t.id], t.id in s.due);
    var d := Apply(s, RunHead(l));
    assert forall u :: u in d.Queue(BASE) ==> u in s.Queue(BASE);
    LivedInv(s.conns[t.id]);
    DestroyedShut(s.conns[t.id], t.id in s.due);
    HeadConns(s, l);
    if R.MayFail(d.conns[t.id]) || R.MayOverflow(d.conns[t.id]) {
      R.FailingCloses(d.conns[t.id]);
    }
  }

  lemma DestroyedShut(c: C.Conn, due: bool)
    requires T.Inv(c) && c.state != C.Connecting && !R.MayClose(c, due)
    ensures !R.MayClose(C.ConnectDestroyed(c), due)
  {
    R.ShutForGood(c, C.Event.Destroy, due);
  }

  lemma {:induction false} QuietForever(s: Server, es: seq<Event>, d: Server)
    requires Quiet(s) && Reaches(s, es, d)
    ensures Quiet(d)
    decreases |es|
  {
    if es != [] {
      QuietStep(s, es[0]);
      QuietForever(Apply(s, es[0]), es[1..], d);
    }
  }

  lemma ReachesFirst(s: Server, e: Event, es: seq<Event>, d: Server)
    requires Enabled(s, e) && Reaches(Apply(s, e), es, d)
    ensures Reaches(s, [e] + es, d)
  {
    assert ([e] + es)[1..] == es;
  }

  /** A removal that waits comes to the head of the base loop's queue. */
  lemma {:induction false} RemovalComes(s: Server) returns (es: seq<Event>, d: Server)
    requires Inv(s) && !s.open && !NoRemovalWaits(s)
    ensures Reaches(s, es, d) && Enabled(d, RunHead(BASE)) && CallsServer(d, RunHead(BASE))
    decreases |s.Queue(BASE)|
  {
    var q := s.Queue(BASE);
    RunHeadNear(s, BASE);
    if q[0].Remove? {
      es, d := [], s;
    } else {
      var next := Apply(s, RunHead(BASE));
      assert q == [q[0]] + q[1..];
      assert next.Queue(BASE) == q[1..];
      var t :| t in q && t.Remove?;
      assert t in next.Queue(BASE);
      es, d := RemovalComes(next);
      ReachesFirst(s, RunHead(BASE), es, d);
      es := [RunHead(BASE)] + es;
    }
  }

  /** The functors before a connection's connectEstablished, and then that. */
  lemma EstablishComesCloser(s: Server, id: Id)
    requires Inv(s) && id in s.conns && s.conns[id].state == C.Connecting && !s.open
    ensures Enabled(s, RunHead(s.loopOf[id])) && !CallsServer(s, RunHead(s.loopOf[id]))
    ensures var d := Apply(s, RunHead(s.loopOf[id]));
            && Inv(d) && !d.open && d.closing == s.closing && d.loopOf == s.loopOf && id in d.conns
            && R.MayClose(d.conns[id], id in d.due) && SeatOf(d, id).Elsewhere()
            && (d.conns[id].state == C.Connecting ==> d.conns[id] == s.conns[id] && |d.Queue(s.loopOf[id])| < |s.Queue(s.loopOf[id])|)
  {
    var io := s.loopOf[id];
    NextIsReady(s, id);
    RunHeadNear(s, io);
    HeadConns(s, io);
    if s.Queue(io)[0].id == id {
      EstablishedMayClose(s.conns[id]);
    }
    assert Sound(Apply(s, RunHead(io)), id);
    LivedInv(Apply(s, RunHead(io)).conns[id]);
  }

  lemma EstablishedMayClose(c: C.Conn)
    ensures C.ConnectEstablished(c).Registered() && C.ConnectEstablished(c).state == C.Connected
  {
    assert ChannelStates.In in c.channel.events + ChannelStates.READ_EVENT;
  }

  /** While a connection is connecting, its loop has something to run, and nothing before its connectEstablished is about it. */
  lemma NextIsReady(s: Server, id: Id)
    requires Inv(s) && id in s.conns && s.conns[id].state == C.Connecting
    ensures var io := s.loopOf[id];
            && io != BASE && s.Queue(io) != [] && !s.Queue(io)[0].Remove?
            && (s.Queue(io)[0].id == id ==> s.Queue(io)[0] == Establish(id))
  {
    var io := s.loopOf[id];
    assert Sound(s, id);
    CallsAre(s.Queue(io), id);
    assert SeatOf(s, id).calls[0] in s.Queue(io);
    HeadSeat(s, io);
  }

  lemma ReleaseKeepsElsewhere(s: Server, id: Id)
    requires Inv(s) && id in s.conns && SeatOf(s, id).inBatch && SeatOf(s, id).Elsewhere()
    ensures Enabled(s, Release(s.loopOf[id], id))
    ensures var d := Apply(s, Release(s.loopOf[id], id));
            && Inv(d) && d == s.(lingering := d.lingering) && id in d.conns
            && SeatOf(d, id).Elsewhere() && !SeatOf(d, id).inBatch && d.Queue(s.loopOf[id]) == s.Queue(s.loopOf[id])
  {
    ReleaseInv(s, s.loopOf[id], id);
    assert Sound(s, id);
  }

  /** The close callback follows a step that closes. */
  lemma ClosesThenCalls(s: Server, id: Id, e: C.Event) returns (es: seq<Event>, d: Server)
    requires Inv(s) && Enabled(s, Happen(id, e)) && C.Closes(s.conns[id], e)
    ensures Reaches(s, es, d) && Enabled(d, CallBack(id)) && CallsServer(d, CallBack(id))
  {
    es, d := [Happen(id, e)], Apply(s, Happen(id, e));
    assert es[1..] == [];
  }

  /** A connection held by more than its loop's batch, and that may close, has a continuation on which it does. */
  lemma {:induction false} CloseComes(s: Server, id: Id) returns (es: seq<Event>, d: Server, e: Event)
    requires Inv(s) && !s.open && id in s.conns && id !in s.closing
    requires SeatOf(s, id).Elsewhere() && R.MayClose(s.conns[id], id in s.due)
    ensures Reaches(s, es, d) && Enabled(d, e) && CallsServer(d, e)
    decreases if s.conns[id].state == C.Connecting then 1 else 0,
              if s.conns[id].state == C.Connecting then |s.Queue(s.loopOf[id])| else R.StepsToClose(s.conns[id], id in s.due),
              if SeatOf(s, id).inBatch then 1 else 0
  {
    assert Sound(s, id);
    var step: Event;
    if s.conns[id].state == C.Connecting {
      EstablishComesCloser(s, id);
      step := RunHead(s.loopOf[id]);
    } else if SeatOf(s, id).inBatch {
      ReleaseKeepsElsewhere(s, id);
      step := Release(s.loopOf[id], id);
    } else {
      step := OwnStepTowards(s, id);
    }
    if step.Happen? && C.Closes(s.conns[id], step.e) {
      es, d := ClosesThenCalls(s, id, step.e);
      e := CallBack(id);
    } else {
      es, d, e := CloseComes(Apply(s, step), id);
      ReachesFirst(s, step, es, d);
      es := [step] + es;
    }
  }

  lemma OwnStepTowards(s: Server, id: Id) returns (e: Event)
    requires Inv(s) && id in s.conns && R.MayClose(s.conns[id], id in s.due) && s.conns[id].state != C.Connecting
    requires SeatOf(s, id).Elsewhere() && !SeatOf(s, id).inBatch && id !in s.closing
    ensures e == Happen(id, R.NextToClose(s.conns[id], id in s.due)) && Enabled(s, e)
    ensures !C.Closes(s.conns[id], e.e) ==>
              var d := Apply(s, e);
              && Inv(d) && d.open == s.open && d.closing == s.closing && id in d.conns && R.MayClose(d.conns[id], id in d.due)
              && R.StepsToClose(d.conns[id], id in d.due) < R.StepsToClose(s.conns[id], id in s.due)
              && d.conns[id].state != C.Connecting && SeatOf(d, id).Elsewhere()
  {
    var c := s.conns[id];
    e := Happen(id, R.NextToClose(c, id in s.due));
    assert Sound(s, id);
    LivedInv(c);
    HeldBySeat(s, id);
    R.CloserByOne(c, id in s.due);
    R.StepFrame(c, e.e);
    HappenInv(s, id, e.e);
  }

  /** One that only its loop's batch holds, and that may close, has a continuation on which it does. */
  lemma {:induction false} FailureComes(s: Server, id: Id) returns (es: seq<Event>, d: Server, e: Event)
    requires Inv(s) && !s.open && id in s.conns && SeatOf(s, id).inBatch && !SeatOf(s, id).Elsewhere()
    requires R.MayFail(s.conns[id]) || R.MayOverflow(s.conns[id])
    ensures Reaches(s, es, d) && Enabled(d, e) && CallsServer(d, e)
    decreases |s.conns[id].sends|
  {
    var c := s.conns[id];
    assert Sound(s, id);
    LivedInv(c);
    HeldBySeat(s, id);
    if R.MayFail(c) {
      es, d := ClosesThenCalls(s, id, C.RunSend(0, c.sends[0], Faulted));
      e := CallBack(id);
    } else {
      R.OverflowsByOne(c);
      var step := Happen(id, C.RunSend(0, c.sends[0], Stalled));
      HappenInv(s, id, step.e);
      if R.QueuesCallback(c, step.e) {
        es, d, e := CloseComes(Apply(s, step), id);
      } else {
        es, d, e := FailureComes(Apply(s, step), id);
      }
      ReachesFirst(s, step, es, d);
      es := [step] + es;
    }
  }

  /**
   A gone server is left alone if and only if no close callback is about to be made, no removal waits for it
   and no connection may close any more.
  */
  lemma GoneForGood(s: Server)
    requires Inv(s) && !s.open
    ensures LeavesServerAlone(s) <==> s.closing == {} && NoRemovalWaits(s) && NoneMayClose(s)
  {
    if s.closing != {} {
      var id :| id in s.closing;
      assert Reaches(s, [], s) && Enabled(s, CallBack(id)) && CallsServer(s, CallBack(id));
    } else if !NoRemovalWaits(s) {
      var es, d := RemovalComes(s);
    } else if !NoneMayClose(s) {
      var id :| id in s.conns && MayStillClose(s, id);
      if SeatOf(s, id).Elsewhere() {
        if !R.MayClose(s.conns[id], id in s.due) { FailingToo(s.conns[id], id in s.due); }
        var es, d, e := CloseComes(s, id);
      } else {
        var es, d, e := FailureComes(s, id);
      }
    } else {
      forall es, d, e | Reaches(s, es, d) && Enabled(d, e)
        ensures !CallsServer(d, e)
      {
        QuietForever(s, es, d);
        QuietStep(d, e);
      }
    }
  }

  lemma FailingToo(c: C.Conn, due: bool)
    requires R.MayFail(c) || R.MayOverflow(c)
    ensures R.MayClose(c, due)
  {
    R.FailingCloses(c);
  }

  /** What holds a connection besides map, queues and batches. */
  predicate Kept(s: Server, id: Id) {
    id in s.kept || id in s.closing
  }

  /** One let go of by the destructor: destroyed and dropped at once, or handed to its loop and otherwise as it was. */
  lemma LetGoOutcome(s: Server, id: Id, here: bool)
    requires Walking(s) && id in s.connections
    ensures var d := LetGo(s, id, here);
            && MapInv(d) && d.loopOf == s.loopOf && d.conns.Keys == s.conns.Keys
            && d.conns == (if s.loopOf[id] == BASE && here then s.conns[id := C.ConnectDestroyed(s.conns[id])] else s.conns)
            && (NoRemovalWaits(d) <==> NoRemovalWaits(s))
            && d.closing == s.closing && d.kept == s.kept && d.due == s.due
            && (SeatOf(d, id).Elsewhere() <==> !(s.loopOf[id] == BASE && here) || Kept(s, id))
            && SeatOf(d, id).inBatch == SeatOf(s, id).inBatch
            && SeatOf(s, id).Elsewhere() && (s.loopOf[id] == BASE ==> !SeatOf(s, id).inBatch)
  {
    var d := LetGo(s, id, here);
    assert Sound(s, id);
    LifeLetGo(id, SeatOf(s, id));
    LetGoNear(s, id, here);
    if s.loopOf[id] == BASE && here {
      assert d.queues == s.queues && d.lingering == s.lingering;
    } else {
      HandedOutcome(s, id, here);
    }
  }

  lemma HandedOutcome(s: Server, id: Id, here: bool)
    requires MapInv(s) && id in s.connections && !(s.loopOf[id] == BASE && here)
    ensures Knows(LetGo(s, id, here), id) && SeatOf(LetGo(s, id, here), id).Elsewhere()
    ensures NoRemovalWaits(LetGo(s, id, here)) <==> NoRemovalWaits(s)
  {
    var d := LetGo(s, id, here);
    CallsAre(d.Queue(s.loopOf[id]), id);
    assert Destroy(id) in d.Queue(s.loopOf[id]);
    assert forall t :: t in d.Queue(BASE) <==> t in s.Queue(BASE) || (s.loopOf[id] == BASE && t == Destroy(id));
  }

  /** Those the destructor destroys itself. */
  ghost predicate EndedHere(s: Server, order: seq<Id>, here: bool, id: Id)
    requires Knows(s, id)
  {
    here && id in order && s.loopOf[id] == BASE
  }

  /** What the destructor's loop makes of one connection. */
  ghost predicate Outcome(s: Server, d: Server, order: seq<Id>, here: bool, id: Id)
    requires Knows(s, id) && Knows(d, id)
  {
    && d.conns[id] == (if EndedHere(s, order, here, id) then C.ConnectDestroyed(s.conns[id]) else s.conns[id])
    && (SeatOf(d, id).Elsewhere() <==> if EndedHere(s, order, here, id) then Kept(s, id) else SeatOf(s, id).Elsewhere())
    && (SeatOf(d, id).inBatch <==> SeatOf(s, id).inBatch)
    && (EndedHere(s, order, here, id) ==> !SeatOf(s, id).inBatch)
  }

  lemma {:induction false} LetGoAllOutcome(s: Server, order: seq<Id>, here: bool)
    requires Walking(s) && NoDup(order) && (forall id :: id in order ==> id in s.connections && Knows(s, id))
    ensures var d := LetGoAll(s, order, here);
            && MapInv(d) && d.loopOf == s.loopOf && d.conns.Keys == s.conns.Keys
            && d.closing == s.closing && d.kept == s.kept && d.due == s.due
            && (NoRemovalWaits(d) <==> NoRemovalWaits(s))
            && (forall id {:trigger Outcome(s, d, order, here, id)} :: id in s.conns ==> Outcome(s, d, order, here, id))
    decreases |order|
  {
    if order != [] {
      var next := LetGo(s, order[0], here);
      LetGoOutcome(s, order[0], here);
      LetGoOnce(s, order[0], here);
      LetGoNear(s, order[0], here);
      NoDupTail(order);
      LetGoAllOutcome(next, order[1..], here);
      forall id | id in s.conns
        ensures Outcome(s, LetGoAll(s, order, here), order, here, id)
      {
        OutcomeOfOne(s, order, here, id);
      }
    }
  }

  lemma OutcomeOfOne(s: Server, order: seq<Id>, here: bool, id: Id)
    requires Walking(s) && NoDup(order) && order != [] && order[0] in s.connections && id in s.conns
    requires forall x :: x in order ==> Knows(s, x)
    requires var next := LetGo(s, order[0], here);
             && MapInv(next) && (forall x :: x in order[1..] ==> Knows(next, x))
             && Knows(next, id) && Knows(LetGoAll(next, order[1..], here), id)
             && Outcome(next, LetGoAll(next, order[1..], here), order[1..], here, id)
    ensures Outcome(s, LetGoAll(s, order, here), order, here, id)
  {
    LetGoOutcome(s, order[0], here);
    LetGoNear(s, order[0], here);
    NoDupTail(order);
    if id != order[0] {
      assert Unmoved(s, LetGo(s, order[0], here), id);
    }
  }

  lemma DestructOutcome(s: Server, order: seq<Id>, here: bool)
    requires Inv(s) && Enabled(s, Destruct(order, here))
    ensures var d := Apply(s, Destruct(order, here));
            && MapInv(d) && d.loopOf == s.loopOf && d.conns.Keys == s.conns.Keys
            && d.closing == s.closing && d.kept == s.kept && d.due == s.due
            && (NoRemovalWaits(d) <==> NoRemovalWaits(s))
            && (forall id {:trigger Outcome(s, d, order, here, id)} :: id in s.conns ==> Outcome(s, d, order, here, id))
            && (forall id :: id in s.conns && EndedHere(s, order, here, id) ==> !s.conns[id].destroyed)
            && (forall id :: id in s.conns ==> d.conns[id] == if EndedHere(s, order, here, id)
                                                              then C.ConnectDestroyed(s.conns[id]) else s.conns[id])
  {
    var shut, d := s.(open := false), Apply(s, Destruct(order, here));
    ShutWalks(s);
    LetGoAllOutcome(shut, order, here);
    assert forall l :: shut.Queue(l) == s.Queue(l);
    forall id | id in s.conns
      ensures Outcome(s, d, order, here, id)
      ensures EndedHere(s, order, here, id) ==> !s.conns[id].destroyed
      ensures d.conns[id] == if EndedHere(s, order, here, id) then C.ConnectDestroyed(s.conns[id]) else s.conns[id]
    {
      assert Outcome(shut, d, order, here, id);
      OutcomeUnshut(s, d, order, here, id);
    }
  }

  lemma OutcomeUnshut(s: Server, d: Server, order: seq<Id>, here: bool, id: Id)
    requires Inv(s) && id in s.conns && Knows(s, id) && Knows(d, id) && Outcome(s.(open := false), d, order, here, id)
    requires forall x :: x in order ==> x in s.connections
    ensures Outcome(s, d, order, here, id)
    ensures EndedHere(s, order, here, id) ==> !s.conns[id].destroyed
  {
    assert Sound(s, id);
    assert SeatOf(s.(open := false), id) == SeatOf(s, id).(open := false);
  }

  /**
   When may a server be destructed? Exactly then does nothing call it afterwards, on any continuation: no
   connection is about to make its close callback, so that the destructor is not run by the down callback of
   one that closes; no removal waits on the base loop; and every connection that exists and may still close
   is one the destructor itself destroys (named by the map and living on the base loop, on whose thread it
   runs), and that nothing else keeps, unless it cannot close any more once it is destroyed.
  */
  lemma SafeToDestruct(s: Server, order: seq<Id>, here: bool)
    requires Inv(s) && Enabled(s, Destruct(order, here))
    ensures LeavesServerAlone(Apply(s, Destruct(order, here)))
            <==> s.closing == {} && NoRemovalWaits(s)
                 && forall id :: id in s.conns && MayStillClose(s, id) ==>
                      && here && id in s.connections && s.loopOf[id] == BASE
                      && !(id in s.kept && R.MayClose(C.ConnectDestroyed(s.conns[id]), id in s.due))
  {
    var d := Apply(s, Destruct(order, here));
    DestructInv(s, order, here);
    DestructOutcome(s, order, here);
    GoneForGood(d);
    if s.closing == {} {
      forall id | id in s.conns
        ensures MayStillClose(d, id) <==> MayStillClose(s, id) && !Shut(s, id, here)
      {
        OutcomeCloses(s, d, order, here, id);
      }
      assert NoneMayClose(d) <==> forall id :: id in s.conns && MayStillClose(s, id) ==> Shut(s, id, here);
    }
  }

  /** The destructor destroys it, and nothing that keeps it can make it close any more. */
  ghost predicate Shut(s: Server, id: Id, here: bool)
    requires Knows(s, id)
  {
    && here && id in s.connections && s.loopOf[id] == BASE
    && !(id in s.kept && R.MayClose(C.ConnectDestroyed(s.conns[id]), id in s.due))
  }

  lemma OutcomeCloses(s: Server, d: Server, order: seq<Id>, here: bool, id: Id)
    requires Inv(s) && Enabled(s, Destruct(order, here)) && Knows(s, id) && Knows(d, id) && s.closing == {}
    requires Outcome(s, d, order, here, id) && d.due == s.due
    ensures MayStillClose(d, id) <==> MayStillClose(s, id) && !Shut(s, id, here)
  {
    assert Sound(s, id);
    LivedInv(s.conns[id]);
    if EndedHere(s, order, here, id) && !R.MayClose(s.conns[id], id in s.due) {
      DestroyedShut(s.conns[id], id in s.due);
    }
  }

  lemma OneMore(ss: seq<Server>, es: seq<Event>, e: Event) returns (more: seq<Server>, events: seq<Event>)
    requires IsRun(ss, es) && Enabled(ss[|es|], e)
    ensures more == ss + [Apply(ss[|es|], e)] && events == es + [e]
    ensures IsRun(more, events)
  {
    more, events := ss + [Apply(ss[|es|], e)], es + [e];
    forall i | 0 <= i < |events|
      ensures StepAt(more, events, i)
    {
      if i < |es| {
        assert StepAt(ss, es, i);
      }
    }
  }

  // ----- Runs -----

  /** An open server with one connection, on loop io, that nothing but its map holds. */
  ghost predicate JustNamed(s: Server, io: LoopId) {
    && s.open && s.connections == {1} && s.loopOf == map[1 := io] && s.conns.Keys == {1} == s.ended.Keys
    && s.lingering == {} && s.closing == {} && s.kept == {} && s.due == {} && s.letGo == {}
    && forall l :: s.Queue(l) == []
  }

  /** A connection of the base loop is up. */
  lemma UpHere(fd: int, opts: C.Options) returns (ss: seq<Server>, es: seq<Event>)
    ensures IsRun(ss, es) && es == [Accept(BASE, fd, opts)]
    ensures JustNamed(ss[1], BASE) && ss[1].conns[1] == C.ConnectEstablished(C.Fresh(fd, opts))
  {
    ss, es := OneMore([Start()], [], Accept(BASE, fd, opts));
  }

  /** A connection of another loop is up, and its loop is polling. */
  lemma UpElsewhere(fd: int, opts: C.Options) returns (ss: seq<Server>, es: seq<Event>)
    ensures IsRun(ss, es) && es == [Accept(1, fd, opts), RunHead(1), Release(1, 1)]
    ensures JustNamed(ss[3], 1) && ss[3].conns[1] == C.ConnectEstablished(C.Fresh(fd, opts))
  {
    ss, es := OneMore([Start()], [], Accept(1, fd, opts));
    assert ss[1].Queue(1) == [Establish(1)] && forall l :: l != 1 ==> ss[1].Queue(l) == [];
    ss, es := OneMore(ss, es, RunHead(1));
    assert ss[2].Queue(1) == [] && forall l :: l != 1 ==> ss[2].Queue(l) == [];
    ss, es := OneMore(ss, es, Release(1, 1));
    assert ss[3].lingering == {} && forall l :: ss[3].Queue(l) == [];
  }

  /** A step of connection 1 that does not close it. */
  lemma OwnStepOnce(ss: seq<Server>, es: seq<Event>, e: C.Event) returns (more: seq<Server>, events: seq<Event>)
    requires IsRun(ss, es) && Knows(ss[|es|], 1) && Held(ss[|es|], 1) && !e.Establish? && !e.Destroy?
    requires C.Enabled(ss[|es|].conns[1], e) && !C.Closes(ss[|es|].conns[1], e) && InTurn(ss[|es|], 1, e)
    ensures IsRun(more, events) && events == es + [Happen(1, e)]
    ensures var s, d := ss[|es|], more[|events|];
            && d == s.(conns := s.conns[1 := C.Apply(s.conns[1], e)], kept := d.kept, due := d.due)
            && d.kept == (if R.QueuesCallback(s.conns[1], e) then s.kept + {1} else s.kept)
            && d.due == (if e.Writable? then s.due - {1} else s.due)
            && Knows(d, 1) && Held(d, 1) && forall l :: d.Queue(l) == s.Queue(l)
  {
    more, events := OneMore(ss, es, Happen(1, e));
    SteppedHeld(ss[|es|], 1, e);
  }

  /** A thread's send() or shutdown(), uninterrupted, while the application keeps a pointer. */
  lemma CallFromAfar(ss: seq<Server>, es: seq<Event>, e: C.Event, f: C.Event) returns (more: seq<Server>, events: seq<Event>)
    requires IsRun(ss, es) && Knows(ss[|es|], 1) && 1 in ss[|es|].kept && 1 !in ss[|es|].due
    requires C.Enabled(ss[|es|].conns[1], e) && C.Enabled(C.Apply(ss[|es|].conns[1], e), f)
    requires (e.BeginSend? && f.EndSend?) || (e.BeginShutdown? && f.EndShutdown?)
    ensures IsRun(more, events) && events == es + [Happen(1, e), Happen(1, f)]
    ensures var s, d := ss[|es|], more[|events|];
            && d == s.(conns := s.conns[1 := C.Apply(C.Apply(s.conns[1], e), f)])
            && Knows(d, 1) && forall l :: d.Queue(l) == s.Queue(l)
  {
    more, events := OwnStepOnce(ss, es, e);
    assert more[|events|].kept == ss[|es|].kept;
    more, events := OwnStepOnce(more, events, f);
    assert more[|events|].kept == ss[|es|].kept;
  }

  /** A connection that is up, after a send and a shutdown from another thread. */
  function SentAndShutConn(c: C.Conn, data: seq<Byte>): C.Conn {
    c.(state := C.Disconnecting, sends := c.sends + [data], handed := c.handed + [data], halting := c.halting + 1)
  }

  lemma SendThenShutdown(c: C.Conn, data: seq<Byte>)
    requires c.state == C.Connected
    ensures C.Enabled(c, C.BeginSend(data)) && C.Enabled(C.Apply(c, C.BeginSend(data)), C.EndSend(data))
    ensures var e := C.Apply(C.Apply(c, C.BeginSend(data)), C.EndSend(data));
            && C.Enabled(e, C.BeginShutdown) && C.Enabled(C.Apply(e, C.BeginShutdown), C.EndShutdown)
            && C.Apply(C.Apply(e, C.BeginShutdown), C.EndShutdown) == SentAndShutConn(c, data)
  {
    assert c.sending + multiset{data} - multiset{data} == c.sending;
  }

  /** The application thread's part. */
  lemma SentAndShut(ss: seq<Server>, es: seq<Event>, data: seq<Byte>) returns (more: seq<Server>, events: seq<Event>)
    requires IsRun(ss, es) && Knows(ss[|es|], 1) && 1 in ss[|es|].kept && 1 !in ss[|es|].due
    requires ss[|es|].conns[1].state == C.Connected
    ensures IsRun(more, events)
    ensures events == es + [Happen(1, C.BeginSend(data)), Happen(1, C.EndSend(data)),
                            Happen(1, C.BeginShutdown), Happen(1, C.EndShutdown)]
    ensures var s, d := ss[|es|], more[|events|];
            && d == s.(conns := s.conns[1 := SentAndShutConn(s.conns[1], data)])
            && Knows(d, 1) && forall l :: d.Queue(l) == s.Queue(l)
  {
    SendThenShutdown(ss[|es|].conns[1], data);
    more, events := CallFromAfar(ss, es, C.BeginSend(data), C.EndSend(data));
    more, events := CallFromAfar(more, events, C.BeginShutdown, C.EndShutdown);
  }

  /** What the queued send does to it after connectDestroyed. */
  lemma SendAfterTheEnd(c: C.Conn)
    requires c.state == C.Connected && c.sends == [] && c.output == [] && !c.Writing() && !c.late
    requires c.opts.wantsHighWater ==> c.opts.mark != 1
    ensures var f, e := C.ConnectDestroyed(SentAndShutConn(c, [1, 2])), C.RunSend(0, [1, 2], Wrote(1));
            && C.Enabled(f, e) && !C.Closes(f, e) && !R.QueuesCallback(f, e)
            && var g := C.Apply(f, e);
            && C.Enabled(g, C.RunShutdown) && !R.QueuesCallback(g, C.RunShutdown)
            && var h := C.Apply(g, C.RunShutdown);
            && h.channel.index == ChannelStates.Added && !h.late && h.output == [2] && h.sends == [] && h.halting == c.halting
  {
    var f, e := C.ConnectDestroyed(SentAndShutConn(c, [1, 2])), C.RunSend(0, [1, 2], Wrote(1));
    T.SendInLoopEffect(C.Taken(f, e), 0, [1, 2], Wrote(1));
    T.UnsentIsSuffix(0, [1, 2], 1);
  }

  /** The end of connection 1 is queued on its loop; the application may still keep a pointer, and nothing else is going on. */
  ghost predicate AboutToEnd(s: Server, kept: bool) {
    && s.connections == {} && Knows(s, 1) && s.loopOf[1] == 1 && s.lingering == {} && s.closing == {} && s.due == {}
    && s.kept == (if kept then {1} else {})
    && s.Queue(1) == [Destroy(1)] && (forall l :: l != 1 ==> s.Queue(l) == [])
  }

  lemma EndQueuedElsewhere(fd: int, opts: C.Options) returns (ss: seq<Server>, es: seq<Event>)
    ensures IsRun(ss, es) && es == [Accept(1, fd, opts), RunHead(1), Release(1, 1), Keep(1), Destruct([1], true)]
    ensures AboutToEnd(ss[5], true) && ss[5].conns[1] == C.ConnectEstablished(C.Fresh(fd, opts))
  {
    ss, es := UpElsewhere(fd, opts);
    ss, es := OneMore(ss, es, Keep(1));
    assert forall l :: ss[4].Queue(l) == ss[3].Queue(l);
    ss, es := OneMore(ss, es, Destruct([1], true));
    assert ss[5] == LetGo(ss[4].(open := false), 1, true);
    assert ss[4].Queue(1) == [] && ss[5].Queue(1) == ss[4].Queue(1) + [Destroy(1)];
    assert forall l :: l != 1 ==> ss[5].Queue(l) == ss[4].Queue(l);
  }

  /** The application lets go, and the loop runs the end. */
  lemma LetGoAndEnd(ss: seq<Server>, es: seq<Event>) returns (more: seq<Server>, events: seq<Event>)
    requires IsRun(ss, es) && AboutToEnd(ss[|es|], true) && !R.Inside(ss[|es|].conns[1])
    ensures IsRun(more, events) && events == es + [Drop(1), RunHead(1)]
    ensures Ending(more[|events|]) && more[|events|].conns[1] == C.ConnectDestroyed(ss[|es|].conns[1])
  {
    more, events := OneMore(ss, es, Drop(1));
    assert forall l :: more[|events|].Queue(l) == ss[|es|].Queue(l);
    EndRuns(more[|events|]);
    more, events := OneMore(more, events, RunHead(1));
  }

  /** Only the batch that ran the end of connection 1 holds it. */
  ghost predicate Ending(s: Server) {
    && s.connections == {} && Knows(s, 1) && s.loopOf[1] == 1 && s.lingering == {(1, 1)}
    && s.closing == {} && s.due == {} && s.kept == {} && forall l :: s.Queue(l) == []
  }

  lemma EndRuns(s: Server)
    requires AboutToEnd(s, false)
    ensures Enabled(s, RunHead(1))
    ensures Ending(Apply(s, RunHead(1))) && Apply(s, RunHead(1)).conns[1] == C.ConnectDestroyed(s.conns[1])
  {
    var d := Apply(s, RunHead(1));
    assert forall l :: d.Queue(l) == if l == 1 then [] else s.Queue(l);
  }

  lemma LastRelease(s: Server)
    requires Ending(s)
    ensures Enabled(s, Release(1, 1)) && Apply(s, Release(1, 1)).conns == s.conns
    ensures Knows(Apply(s, Release(1, 1)), 1) && !Held(Apply(s, Release(1, 1)), 1)
  {
    var d := Apply(s, Release(1, 1));
    assert forall l :: d.Queue(l) == s.Queue(l);
    assert d.lingering == {};
  }

  /** A functor of connection 1 in that batch. */
  lemma FunctorRuns(ss: seq<Server>, es: seq<Event>, e: C.Event) returns (more: seq<Server>, events: seq<Event>)
    requires IsRun(ss, es) && Ending(ss[|es|]) && (e.RunSend? || e.RunShutdown?)
    requires C.Enabled(ss[|es|].conns[1], e) && !C.Closes(ss[|es|].conns[1], e) && !R.QueuesCallback(ss[|es|].conns[1], e)
    ensures IsRun(more, events) && events == es + [Happen(1, e)]
    ensures Ending(more[|events|]) && more[|events|].conns[1] == C.Apply(ss[|es|].conns[1], e)
  {
    assert (1, 1) in ss[|es|].lingering;
    more, events := OwnStepOnce(ss, es, e);
  }

  /** The end of a connection of another loop runs ahead of a send and a shutdown queued behind it. */
  lemma EndedBeforeSend(fd: int, opts: C.Options) returns (ss: seq<Server>, es: seq<Event>)
    ensures IsRun(ss, es)
    ensures es == [Accept(1, fd, opts), RunHead(1), Release(1, 1), Keep(1), Destruct([1], true),
                   Happen(1, C.BeginSend([1, 2])), Happen(1, C.EndSend([1, 2])),
                   Happen(1, C.BeginShutdown), Happen(1, C.EndShutdown), Drop(1), RunHead(1)]
    ensures Ending(ss[11])
    ensures ss[11].conns[1] == C.ConnectDestroyed(SentAndShutConn(C.ConnectEstablished(C.Fresh(fd, opts)), [1, 2]))
  {
    ss, es := EndQueuedElsewhere(fd, opts);
    ss, es := SentAndShut(ss, es, [1, 2]);
    ss, es := LetGoAndEnd(ss, es);
  }

  /**
   How a channel outlives its connection: the destructor queues connectDestroyed; an application thread,
   for which the connection is still up, sends and shuts down, and drops its pointer; then the loop runs the
   three in one batch, and drops it. connectDestroyed has removed the channel, and the send puts it back.
  */
  lemma SendOrphansChannel(fd: int, opts: C.Options) returns (ss: seq<Server>, es: seq<Event>)
    requires opts.wantsHighWater ==> opts.mark != 1
    ensures IsRun(ss, es)
    ensures es == [Accept(1, fd, opts), RunHead(1), Release(1, 1), Keep(1), Destruct([1], true),
                   Happen(1, C.BeginSend([1, 2])), Happen(1, C.EndSend([1, 2])),
                   Happen(1, C.BeginShutdown), Happen(1, C.EndShutdown), Drop(1),
                   RunHead(1), Happen(1, C.RunSend(0, [1, 2], Wrote(1))), Happen(1, C.RunShutdown), Release(1, 1)]
    ensures Knows(ss[14], 1) && Orphaned(ss[14], 1) && !ss[14].conns[1].late && ss[14].conns[1].output == [2]
    ensures ss[14].conns[1].sends == [] && ss[14].conns[1].halting == 0
  {
    ss, es := EndedBeforeSend(fd, opts);
    UpConn(fd, opts);
    SendAfterTheEnd(C.ConnectEstablished(C.Fresh(fd, opts)));
    ss, es := BatchOrphans(ss, es);
  }

  /** The batch of connectDestroyed and the send, and its end. */
  lemma BatchOrphans(ss: seq<Server>, es: seq<Event>) returns (more: seq<Server>, events: seq<Event>)
    requires IsRun(ss, es) && Ending(ss[|es|])
    requires var f, e := ss[|es|].conns[1], C.RunSend(0, [1, 2], Wrote(1));
             && C.Enabled(f, e) && !C.Closes(f, e) && !R.QueuesCallback(f, e)
             && C.Enabled(C.Apply(f, e), C.RunShutdown) && !R.QueuesCallback(C.Apply(f, e), C.RunShutdown)
             && C.Apply(C.Apply(f, e), C.RunShutdown).channel.index == ChannelStates.Added
    ensures IsRun(more, events)
    ensures events == es + [Happen(1, C.RunSend(0, [1, 2], Wrote(1))), Happen(1, C.RunShutdown), Release(1, 1)]
    ensures var d := more[|events|];
            && Knows(d, 1) && Orphaned(d, 1)
            && d.conns[1] == C.Apply(C.Apply(ss[|es|].conns[1], C.RunSend(0, [1, 2], Wrote(1))), C.RunShutdown)
  {
    more, events := FunctorRuns(ss, es, C.RunSend(0, [1, 2], Wrote(1)));
    more, events := FunctorRuns(more, events, C.RunShutdown);
    LastRelease(more[|events|]);
    more, events := OneMore(more, events, Release(1, 1));
  }

  /**
   How a functor outlives its connection: the same, but for the loop dropping connectDestroyed's batch
   before it runs the send, which was queued later and holds no reference.
  */
  lemma SendOutlivesConnection(fd: int, opts: C.Options) returns (ss: seq<Server>, es: seq<Event>)
    ensures IsRun(ss, es)
    ensures es == [Accept(1, fd, opts), RunHead(1), Release(1, 1), Keep(1), Destruct([1], true),
                   Happen(1, C.BeginSend([1, 2])), Happen(1, C.EndSend([1, 2])),
                   Happen(1, C.BeginShutdown), Happen(1, C.EndShutdown), Drop(1), RunHead(1), Release(1, 1)]
    ensures Knows(ss[12], 1) && !Held(ss[12], 1) && ss[12].conns[1].sends == [[1, 2]]
  {
    ss, es := EndedBeforeSend(fd, opts);
    LastRelease(ss[|es|]);
    ss, es := OneMore(ss, es, Release(1, 1));
  }

  /** The destructor, on the base loop's thread, of a server with one connection of that loop. */
  lemma DestructsHere(ss: seq<Server>, es: seq<Event>) returns (more: seq<Server>, events: seq<Event>)
    requires IsRun(ss, es) && ss[|es|].open && ss[|es|].connections == {1} && Knows(ss[|es|], 1) && ss[|es|].loopOf[1] == BASE
    ensures IsRun(more, events) && events == es + [Destruct([1], true)]
    ensures more[|events|] == ss[|es|].(open := false, connections := {}, letGo := ss[|es|].letGo + {1}).Destroyed(1)
    ensures forall l :: more[|events|].Queue(l) == ss[|es|].Queue(l)
  {
    more, events := OneMore(ss, es, Destruct([1], true));
    assert more[|events|] == LetGo(ss[|es|].(open := false), 1, true);
    assert ss[|es|].connections - {1} == {};
  }

  // How a channel outlives its connection without any send

  /** A connection that is up, after two bytes sent, one of them taken, and a shutdown. */
  function HalfSentConn(c: C.Conn): C.Conn {
    C.Apply(C.Apply(c, C.Send(0, [1, 2], Wrote(1))), C.ShutdownHere)
  }

  /** What a message does to it, and after connectDestroyed the rest of the dispatch. */
  lemma DrainAfterTheEnd(c: C.Conn)
    requires c.state == C.Connected && c.Registered() && c.Reading() && c.output == [] && !c.Writing()
    ensures var d := HalfSentConn(c);
            && d.state == C.Disconnecting && d.Registered() && d.Writing() && d.output == [2] && d.sends == c.sends
            && d.sending == c.sending && d.stopping == c.stopping
            && var f, e := C.ConnectDestroyed(C.Apply(d, C.Readable(ReadBytes([3])))), C.Writable(Wrote(1));
            && C.Enabled(f, e) && R.Revives(f, e) && f.channel.index == ChannelStates.New
            && C.Apply(f, e).channel.index == ChannelStates.Added && C.Apply(f, e).sends == c.sends && !R.Inside(c) == !R.Inside(C.Apply(f, e))
  {
    T.SendInLoopEffect(c, 0, [1, 2], Wrote(1));
    T.UnsentIsSuffix(0, [1, 2], 1);
    assert ChannelStates.Out in c.channel.events + ChannelStates.WRITE_EVENT;
    var f := C.ConnectDestroyed(C.Apply(HalfSentConn(c), C.Readable(ReadBytes([3]))));
    T.HandleWriteEffect(f, Wrote(1));
    T.DrainedMaskFacts(f);
    assert T.DrainedMask(f) != ChannelStates.NONE_EVENT;
  }

  /** It is sent two bytes, of which the kernel takes one, and is shut down, by the loop's own thread. */
  lemma HalfSent(fd: int, opts: C.Options) returns (ss: seq<Server>, es: seq<Event>)
    ensures IsRun(ss, es)
    ensures es == [Accept(BASE, fd, opts), Happen(1, C.Send(0, [1, 2], Wrote(1))), Happen(1, C.ShutdownHere)]
    ensures Alone(ss[3]) && ss[3].open && ss[3].due == {} && ss[3].connections == {1}
    ensures ss[3].conns[1] == HalfSentConn(C.ConnectEstablished(C.Fresh(fd, opts)))
  {
    ss, es := UpHere(fd, opts);
    UpConn(fd, opts);
    DrainAfterTheEnd(ss[1].conns[1]);
    ss, es := OwnStepOnce(ss, es, C.Send(0, [1, 2], Wrote(1)));
    ss, es := OwnStepOnce(ss, es, C.ShutdownHere);
  }

  lemma UpConn(fd: int, opts: C.Options)
    ensures var c := C.ConnectEstablished(C.Fresh(fd, opts));
            && c.state == C.Connected && c.Registered() && c.Reading() && c.output == [] && c.sends == [] && !c.Writing()
            && !R.Inside(c)
  {
    assert ChannelStates.In in C.ConnectEstablished(C.Fresh(fd, opts)).channel.events;
  }

  /** Connection 1 lives on the base loop, where nothing else is going on. */
  ghost predicate Alone(s: Server) {
    && Knows(s, 1) && s.loopOf[1] == BASE && s.lingering == {} && s.closing == {} && forall l :: s.Queue(l) == []
  }

  lemma DispatchBegins(ss: seq<Server>, es: seq<Event>) returns (more: seq<Server>, events: seq<Event>)
    requires IsRun(ss, es) && Alone(ss[|es|]) && 1 in ss[|es|].connections && ss[|es|].due == {}
    requires ss[|es|].conns[1].Registered() && ss[|es|].conns[1].Writing()
    ensures IsRun(more, events) && events == es + [Report(1), Happen(1, C.Readable(ReadBytes([3])))]
    ensures var s, d := ss[|es|], more[|events|];
            && Alone(d) && d.open == s.open && d.connections == s.connections && 1 in d.kept && d.due == {1}
            && d.conns[1] == C.Apply(s.conns[1], C.Readable(ReadBytes([3])))
  {
    more, events := OneMore(ss, es, Report(1));
    assert forall l :: more[|events|].Queue(l) == ss[|es|].Queue(l);
    more, events := OwnStepOnce(more, events, C.Readable(ReadBytes([3])));
  }

  /** In a dispatch for reading and writing the message callback destructs the server, and then handleWrite drains. */
  lemma DispatchOutlivesServer(ss: seq<Server>, es: seq<Event>) returns (more: seq<Server>, events: seq<Event>)
    requires IsRun(ss, es) && Alone(ss[|es|]) && ss[|es|].open && ss[|es|].due == {} && ss[|es|].connections == {1}
    requires var d := ss[|es|].conns[1];
             && d.state == C.Disconnecting && d.Registered() && d.Writing() && d.output == [2]
             && C.Enabled(C.ConnectDestroyed(C.Apply(d, C.Readable(ReadBytes([3])))), C.Writable(Wrote(1)))
    ensures IsRun(more, events)
    ensures events == es + [Report(1), Happen(1, C.Readable(ReadBytes([3]))), Destruct([1], true), Happen(1, C.Writable(Wrote(1)))]
    ensures var s := more[|events|];
            && Alone(s) && s.connections == {} && 1 in s.kept && 1 !in s.due
            && s.conns[1] == C.Apply(C.ConnectDestroyed(C.Apply(ss[|es|].conns[1], C.Readable(ReadBytes([3])))), C.Writable(Wrote(1)))
  {
    more, events := DispatchBegins(ss, es);
    more, events := DestructsHere(more, events);
    more, events := OwnStepOnce(more, events, C.Writable(Wrote(1)));
  }

  lemma DrainedAfterTheEnd(fd: int, opts: C.Options) returns (ss: seq<Server>, es: seq<Event>)
    ensures IsRun(ss, es)
    ensures es == [Accept(BASE, fd, opts), Happen(1, C.Send(0, [1, 2], Wrote(1))), Happen(1, C.ShutdownHere), Report(1),
                   Happen(1, C.Readable(ReadBytes([3]))), Destruct([1], true), Happen(1, C.Writable(Wrote(1)))]
    ensures Alone(ss[7]) && ss[7].connections == {} && 1 in ss[7].kept && 1 !in ss[7].due
    ensures var c := ss[7].conns[1]; c.channel.index == ChannelStates.Added && c.sends == [] && !R.Inside(c)
  {
    ss, es := HalfSent(fd, opts);
    UpConn(fd, opts);
    DrainAfterTheEnd(C.ConnectEstablished(C.Fresh(fd, opts)));
    ss, es := DispatchOutlivesServer(ss, es);
  }

  /**
   How a channel outlives its connection without any send: the destructor runs in a message callback of the
   base loop, in the middle of a dispatch for reading and writing. connectDestroyed removes the channel; the
   dispatch goes on to drain the output, which puts the channel back; then the dispatch lets go.
  */
  lemma DrainOrphansChannel(fd: int, opts: C.Options) returns (ss: seq<Server>, es: seq<Event>)
    ensures IsRun(ss, es)
    ensures es == [Accept(BASE, fd, opts), Happen(1, C.Send(0, [1, 2], Wrote(1))), Happen(1, C.ShutdownHere), Report(1),
                   Happen(1, C.Readable(ReadBytes([3]))), Destruct([1], true), Happen(1, C.Writable(Wrote(1))), Drop(1)]
    ensures Knows(ss[8], 1) && Orphaned(ss[8], 1) && ss[8].conns[1].sends == []
  {
    ss, es := DrainedAfterTheEnd(fd, opts);
    LastDrop(ss[7]);
    ss, es := OneMore(ss, es, Drop(1));
  }

  lemma LastDrop(s: Server)
    requires Alone(s) && s.connections == {} && 1 in s.kept && 1 !in s.due && !R.Inside(s.conns[1])
    ensures Enabled(s, Drop(1)) && Knows(Apply(s, Drop(1)), 1) && !Held(Apply(s, Drop(1)), 1) && Apply(s, Drop(1)).conns == s.conns
  {
    assert forall l :: Apply(s, Drop(1)).Queue(l) == s.Queue(l);
  }

  // How a server is called that is gone

  /** A connection of another loop is up, and then hangs up: its removal waits on the base loop. */
  lemma HungUpElsewhere(fd: int, opts: C.Options) returns (ss: seq<Server>, es: seq<Event>)
    ensures IsRun(ss, es) && es == [Accept(1, fd, opts), RunHead(1), Release(1, 1), Happen(1, C.HangUp), CallBack(1)]
    ensures var s := ss[5];
            && s.open && s.connections == {1} && s.loopOf == map[1 := 1] && s.conns.Keys == {1} == s.ended.Keys
            && s.Queue(BASE) == [Remove(1)] && s.Queue(1) == []
  {
    ss, es := UpElsewhere(fd, opts);
    UpConn(fd, opts);
    assert ss[3].Queue(1) == [] && ss[3].Queue(BASE) == [];
    ss, es := OneMore(ss, es, Happen(1, C.HangUp));
    assert ss[4].Queue(1) == [] && ss[4].Queue(BASE) == [];
    ss, es := OneMore(ss, es, CallBack(1));
  }

  /** Why a waiting removal matters: it is run on a server that is gone, and a second connectDestroyed is queued. */
  lemma RemovalOutlivesServer(fd: int, opts: C.Options) returns (ss: seq<Server>, es: seq<Event>)
    ensures IsRun(ss, es)
    ensures es == [Accept(1, fd, opts), RunHead(1), Release(1, 1), Happen(1, C.HangUp), CallBack(1), Destruct([1], true), RunHead(BASE)]
    ensures !ss[6].open && Enabled(ss[6], RunHead(BASE)) && CallsServer(ss[6], RunHead(BASE))
    ensures ss[7].Queue(1) == [Destroy(1), Destroy(1)]
  {
    ss, es := HungUpElsewhere(fd, opts);
    ss, es := OneMore(ss, es, Destruct([1], true));
    var d := ss[6];
    assert d == LetGo(ss[5].(open := false), 1, true);
    assert d.Queue(BASE) == [Remove(1)] && d.Queue(1) == [Destroy(1)];
    ss, es := OneMore(ss, es, RunHead(BASE));
  }

  /** Why the destructor must not be run by the down callback of a connection that closes: the close callback comes after it. */
  lemma DownCallbackDestructs(fd: int, opts: C.Options) returns (ss: seq<Server>, es: seq<Event>)
    ensures IsRun(ss, es) && es == [Accept(BASE, fd, opts), Happen(1, C.HangUp), Destruct([1], true), CallBack(1)]
    ensures !ss[3].open && Enabled(ss[3], CallBack(1)) && CallsServer(ss[3], CallBack(1))
  {
    ss, es := UpHere(fd, opts);
    UpConn(fd, opts);
    ss, es := OneMore(ss, es, Happen(1, C.HangUp));
    assert 1 in ss[2].closing;
    ss, es := DestructsHere(ss, es);
    ss, es := OneMore(ss, es, CallBack(1));
  }

  /** A send on the loop's own thread is complete at once. */
  lemma SentAtOnce(fd: int, opts: C.Options) returns (ss: seq<Server>, es: seq<Event>)
    requires opts.wantsWriteComplete
    ensures IsRun(ss, es) && es == [Accept(BASE, fd, opts), Happen(1, C.Send(0, [7], Wrote(1)))]
    ensures Alone(ss[2]) && ss[2].open && ss[2].connections == {1} && 1 in ss[2].kept && ss[2].due == {}
    ensures var c := ss[2].conns[1]; c.state == C.Connected && c.sends == [] && c.output == [] && !c.Writing() && !R.Inside(c)
  {
    ss, es := UpHere(fd, opts);
    UpConn(fd, opts);
    var e := C.Send(0, [7], Wrote(1));
    T.SendInLoopEffect(ss[1].conns[1], 0, [7], Wrote(1));
    T.UnsentIsSuffix(0, [7], 1);
    assert R.CompletesNow(ss[1].conns[1], e);
    ss, es := OwnStepOnce(ss, es, e);
  }

  /** ... and a send and a shutdown of another thread are queued behind its write-complete callback. */
  lemma SentBehindCallback(fd: int, opts: C.Options) returns (ss: seq<Server>, es: seq<Event>)
    requires opts.wantsWriteComplete
    ensures IsRun(ss, es)
    ensures es == [Accept(BASE, fd, opts), Happen(1, C.Send(0, [7], Wrote(1))),
                   Happen(1, C.BeginSend([1])), Happen(1, C.EndSend([1])), Happen(1, C.BeginShutdown), Happen(1, C.EndShutdown)]
    ensures Alone(ss[6]) && ss[6].open && ss[6].connections == {1} && 1 in ss[6].kept && ss[6].due == {}
    ensures var c := ss[6].conns[1]; c.state == C.Disconnecting && c.sends == [[1]] && c.output == [] && !c.Writing()
  {
    ss, es := SentAtOnce(fd, opts);
    ss, es := SentAndShut(ss, es, [1]);
    assert forall l :: ss[6].Queue(l) == [];
  }

  /**
   Why what keeps a connection matters: a write-complete callback waits in the base loop's queue, and keeps a
   connection that has a send and a shutdown of another thread queued behind it. The destructor's
   connectDestroyed only removes the channel; then the send finds the peer gone and closes.
  */
  lemma KeptSendCallsServer(fd: int, opts: C.Options) returns (ss: seq<Server>, es: seq<Event>)
    requires opts.wantsWriteComplete
    ensures IsRun(ss, es)
    ensures es == [Accept(BASE, fd, opts), Happen(1, C.Send(0, [7], Wrote(1))),
                   Happen(1, C.BeginSend([1])), Happen(1, C.EndSend([1])), Happen(1, C.BeginShutdown), Happen(1, C.EndShutdown),
                   Destruct([1], true), Happen(1, C.RunSend(0, [1], Faulted)), CallBack(1)]
    ensures !ss[8].open && Enabled(ss[8], CallBack(1)) && CallsServer(ss[8], CallBack(1))
  {
    ss, es := SentBehindCallback(fd, opts);
    ss, es := DestructsHere(ss, es);
    ss, es := OneMore(ss, es, Happen(1, C.RunSend(0, [1], Faulted)));
    assert 1 in ss[8].closing;
    ss, es := OneMore(ss, es, CallBack(1));
  }
}
